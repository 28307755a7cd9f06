/** Counting what becomes of each connection a socket was asked for or learned of. */
module Accounts {
  import opened Sockets

  function Sum<T>(xs: seq<T>, w: T -> nat): nat {
    if xs == [] then 0 else Sum(xs[..|xs| - 1], w) + w(xs[|xs| - 1])
  }

  lemma SumAppend<T>(xs: seq<T>, x: T, w: T -> nat)
    ensures Sum(xs + [x], w) == Sum(xs, w) + w(x)
  {
    assert (xs + [x])[..|xs|] == xs;
  }

  lemma {:induction false} SumUpdate<T>(xs: seq<T>, i: nat, x: T, w: T -> nat)
    requires i < |xs|
    ensures Sum(xs[i := x], w) + w(xs[i]) == Sum(xs, w) + w(x)
  {
    var n, after := |xs| - 1, xs[i := x];
    if i < n {
      assert after[..n] == xs[..n][i := x];
      SumUpdate(xs[..n], i, x, w);
    } else {
      assert after[..n] == xs[..n];
    }
  }

  lemma {:induction false} SumConcat<T>(xs: seq<T>, ys: seq<T>, w: T -> nat)
    ensures Sum(xs + ys, w) == Sum(xs, w) + Sum(ys, w)
  {
    if ys == [] {
      assert xs + ys == xs;
    } else {
      assert (xs + ys)[..|xs + ys| - 1] == xs + ys[..|ys| - 1];
      SumConcat(xs, ys[..|ys| - 1], w);
    }
  }

  /** Count everything, or only what concerns one remote. */
  datatype Who = Anyone | Only(remote: Remote) {
    predicate Is(r: Remote) { Anyone? || remote == r }
  }

  function Among(who: Who): Remote -> nat {
    (r: Remote) => if who.Is(r) then 1 else 0
  }

  function LiveAmong(live: Peer -> bool, who: Who): Peer -> nat {
    (p: Peer) => if live(p) && who.Is(p.remote) then 1 else 0
  }

  lemma LiveAmongAt(live: Peer -> bool, who: Who, p: Peer)
    ensures LiveAmong(live, who)(p) == if live(p) && who.Is(p.remote) then 1 else 0
  {
  }

  function PendingAmong(who: Who): Task -> nat {
    (t: Task) => if t.kind == Reestablish && t.Enabled() && who.Is(t.remote) then 1 else 0
  }

  function Count(rs: seq<Remote>, who: Who): nat {
    Sum(rs, Among(who))
  }

  /** The slots that `live` selects. */
  function LiveCount(s: State, live: Peer -> bool, who: Who): nat {
    Sum(s.peers, LiveAmong(live, who))
  }

  /** The reconnect tasks that are still to fire. */
  function PendingCount(s: State, who: Who): nat {
    Sum(s.tasks, PendingAmong(who))
  }

  lemma CountOne(r: Remote, who: Who)
    ensures Count([r], who) == if who.Is(r) then 1 else 0
  {
    SumAppend([], r, Among(who));
    assert [] + [r] == [r];
  }

  lemma {:induction false} CountAnyone(rs: seq<Remote>)
    ensures Count(rs, Anyone) == |rs|
  {
    if rs != [] {
      CountAnyone(rs[..|rs| - 1]);
    }
  }

  /** What one event takes from and gives to the live slots and the pending reconnects. */
  datatype Flow = Flow(liveIn: seq<Remote>, liveOut: seq<Remote>, pendingIn: seq<Remote>, pendingOut: seq<Remote>)

  ghost predicate Obeys(s: State, s': State, live: Peer -> bool, f: Flow, who: Who) {
    && LiveCount(s', live, who) + Count(f.liveOut, who) == LiveCount(s, live, who) + Count(f.liveIn, who)
    && PendingCount(s', who) + Count(f.pendingOut, who) == PendingCount(s, who) + Count(f.pendingIn, who)
  }

  /** The remotes for which there is a fresh slot, in order, and those for which there is none. */
  function Admitted(s: State, remotes: seq<Remote>): seq<Remote>
    requires |s.peers| <= PEERS_MAX_COUNT
  {
    var room := PEERS_MAX_COUNT - |s.peers|;
    if |remotes| <= room then remotes else remotes[..room]
  }

  function Refused(s: State, remotes: seq<Remote>): seq<Remote>
    requires |s.peers| <= PEERS_MAX_COUNT
  {
    remotes[|Admitted(s, remotes)|..]
  }

  lemma AdmittedOrRefused(s: State, remotes: seq<Remote>, who: Who)
    requires |s.peers| <= PEERS_MAX_COUNT
    ensures Count(Admitted(s, remotes), who) + Count(Refused(s, remotes), who) == Count(remotes, who)
  {
    assert Admitted(s, remotes) + Refused(s, remotes) == remotes;
    SumConcat(Admitted(s, remotes), Refused(s, remotes), Among(who));
  }

  /** The history of a socket, counted from what happened to it and not from what it did:
      connections asked for, peers learned from their messages, orderly goodbyes, and
      attempts for which there was no slot. */
  datatype Ledger = Ledger(requested: nat, learned: nat, shut: nat, dropped: nat)

  const EMPTY_LEDGER := Ledger(0, 0, 0, 0)

  /** Every connection owed is live, awaiting its reconnect, said goodbye to or dropped. */
  predicate Balanced(s: State, live: Peer -> bool, who: Who, l: Ledger) {
    LiveCount(s, live, who) + PendingCount(s, who) + l.shut + l.dropped == l.requested + l.learned
  }

  /** What the table can still give: 3 for a fresh slot, 2 for a live one, 1 for a pending reconnect. */
  function Weight(s: State, live: Peer -> bool): int {
    3 * (PEERS_MAX_COUNT - |s.peers|) + 2 * LiveCount(s, live, Anyone) + PendingCount(s, Anyone)
  }
}
