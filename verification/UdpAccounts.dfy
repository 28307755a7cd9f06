/** Where every UDP peer goes: conservation of connections, the bound on churn, and the
    traffic that the keep-alive protocol causes by itself. */
module UdpAccounts {
  import opened Sockets
  import opened SocketUdp
  import opened UdpOwnership
  import opened Accounts

  // ---------------------------------------------------------------- the flow of one event

  function FlowOf(s: State, e: Event): Flow
    requires |s.peers| <= PEERS_MAX_COUNT && (e.Fire? ==> e.i < |s.tasks|)
  {
    match e
    case Start(remotes) => Flow(Admitted(s, remotes), [], [], [])
    case Say(msg) => Flow([], [], [], [])
    case Receive(from, msg) =>
      if msg == "q" then Flow([], [from], [], [])
      else if FindRemote(s, from).Some? then Flow([], [], [], [])
      else Flow(Admitted(s, [from]), [], [], [])
    case Fire(i) =>
      var r := s.tasks[i].remote;
      match s.tasks[i].kind
      case Ping => Flow([], [], [], [])
      case CommLost => Flow([], [r], [r], [])
      case Reestablish => Flow(Admitted(s, [r]), [], [], [r])
  }

  lemma CommUpFlow(s: State, r: Remote, now: int, who: Who)
    requires |s.peers| <= PEERS_MAX_COUNT && r.port != 0
    ensures var s' := CommUpUdp(s, r, now);
            && Obeys(s, s', UdpLive, Flow(Admitted(s, [r]), [], [], []), who)
            && |s'.peers| == |s.peers| + |Admitted(s, [r])|
  {
    if !Full(s) {
      var h := |s.tasks|;
      var p := BLANK.(remote := r, ping := Some(h), commLost := Some(h + 1));
      assert CommUpUdp(s, r, now).peers == s.peers + [p];
      SumAppend(s.peers, p, LiveAmong(UdpLive, who));
      var t1, t2 := NewTask(Ping, r, now), NewTask(CommLost, r, now);
      assert s.tasks + [t1, t2] == s.tasks + [t1] + [t2];
      SumAppend(s.tasks, t1, PendingAmong(who));
      SumAppend(s.tasks + [t1], t2, PendingAmong(who));
      assert Admitted(s, [r]) == [r];
      CountOne(r, who);
      assert UdpLive(p);
      LiveAmongAt(UdpLive, who, p);
    }
  }

  lemma {:induction false} ConnectFlow(s: State, remotes: seq<Remote>, now: int, who: Who)
    requires |s.peers| <= PEERS_MAX_COUNT && forall r :: r in remotes ==> r.port != 0
    ensures var s' := ConnectUdp(s, remotes, now);
            && Obeys(s, s', UdpLive, Flow(Admitted(s, remotes), [], [], []), who)
            && |s'.peers| == |s.peers| + |Admitted(s, remotes)|
    decreases |remotes|
  {
    if remotes != [] {
      var s1 := CommUpUdp(s, remotes[0], now);
      CommUpFlow(s, remotes[0], now, who);
      ConnectFlow(s1, remotes[1..], now, who);
      assert Admitted(s, remotes) == Admitted(s, [remotes[0]]) + Admitted(s1, remotes[1..]);
      SumConcat(Admitted(s, [remotes[0]]), Admitted(s1, remotes[1..]), Among(who));
    }
  }

  lemma RemovalFlow(s: State, j: nat, who: Who)
    requires UdpInv(s) && j < |s.peers| && UdpLive(s.peers[j])
    ensures Obeys(s, RemoveAt(s, j), UdpLive, Flow([], [s.peers[j].remote], [], []), who)
  {
    assert SlotOk(s, j);
    var p := s.peers[j];
    SumUpdate(s.peers, j, Tombstone(s.protocol, p), LiveAmong(UdpLive, who));
    var once := Cancel(s.tasks, p.ping);
    SumUpdate(s.tasks, p.ping.value, once[p.ping.value], PendingAmong(who));
    SumUpdate(once, p.commLost.value, Cancel(once, p.commLost)[p.commLost.value], PendingAmong(who));
    CountOne(p.remote, who);
  }

  lemma StepFlow(s: State, e: Event, rearm: Rearm, now: int, who: Who)
    requires UdpInv(s) && Guard(s, e, now) && Step(s, e, rearm, now).Done?
    ensures var s' := Step(s, e, rearm, now).state;
            && Obeys(s, s', UdpLive, FlowOf(s, e), who)
            && |s'.peers| == |s.peers| + |FlowOf(s, e).liveIn|
  {
    match e {
      case Start(remotes) => ConnectFlow(s, remotes, now, who);
      case Say(msg) =>
      case Receive(from, msg) => ReceiveFlow(s, from, msg, now, who);
      case Fire(i) => FireFlow(s, i, rearm, now, who);
    }
  }

  /** A reset touches no counts. */
  lemma ResetFlow(s: State, j: nat, now: int, who: Who)
    requires UdpInv(s) && j < |s.peers| && UdpLive(s.peers[j])
    ensures ResetTasks(s, j, now).Done?
    ensures var s' := ResetTasks(s, j, now).state;
            s'.peers == s.peers && PendingCount(s', who) == PendingCount(s, who)
  {
    var p := s.peers[j];
    assert SlotOk(s, j);
    var once := ResetAt(s.tasks, p.ping.value, now);
    SumUpdate(s.tasks, p.ping.value, once[p.ping.value], PendingAmong(who));
    SumUpdate(once, p.commLost.value, ResetAt(once, p.commLost.value, now)[p.commLost.value], PendingAmong(who));
  }

  lemma ReceiveFlow(s: State, from: Remote, msg: string, now: int, who: Who)
    requires UdpInv(s) && from.port != 0 && HandleUdp(s, from, msg, now).Done?
    ensures var s' := HandleUdp(s, from, msg, now).state;
            && Obeys(s, s', UdpLive, FlowOf(s, Receive(from, msg)), who)
            && |s'.peers| == |s.peers| + |FlowOf(s, Receive(from, msg)).liveIn|
  {
    var found := FindRemote(s, from);
    var s1 := if msg == KEEP_ALIVE_MSG then SendTo(s, from, KEEP_ALIVE_ACK_MSG) else s;
    if msg == QUIT_MSG {
      RemovalFlow(s, found.value, who);
    } else if found.None? {
      CommUpFlow(s1, from, now, who);
    } else {
      CountdownIsFree(s, s1);
      ResetFlow(s1, found.value, now, who);
    }
  }

  lemma CommLostFlow(s: State, r: Remote, now: int, who: Who)
    requires UdpInv(s) && r.port != 0 && FindRemote(s, r).Some?
    ensures var s' := CommLostUdp(s, r, now).state;
            && Obeys(s, s', UdpLive, Flow([], [r], [r], []), who)
            && |s'.peers| == |s.peers|
  {
    ReconnectTaskKeepsInv(s, r, now);
    SumAppend(s.tasks, NewTask(Reestablish, r, now), PendingAmong(who));
    RemovalFlow(AddTask(s, Reestablish, r, now), FindRemote(s, r).value, who);
  }

  /** What the scheduler itself does before it runs the task. */
  lemma FiredFlow(s: State, i: nat, rearm: Rearm, now: int, who: Who)
    requires UdpInv(s) && Guard(s, Fire(i), now)
    ensures var t := s.tasks[i];
            var s1 := s.(tasks := s.tasks[i := Fired(t, rearm, now)]);
            && UdpInv(s1) && t.remote.port != 0
            && (t.kind == CommLost ==> FindRemote(s1, t.remote).Some?)
            && PendingCount(s1, who) + Count(if t.kind == Reestablish then [t.remote] else [], who) == PendingCount(s, who)
  {
    FiringIsSafe(s, i, rearm, now);
    assert TaskOk(s, i);
    var t := s.tasks[i];
    CountdownIsFree(s, s.(tasks := s.tasks[i := Fired(t, rearm, now)]));
    SumUpdate(s.tasks, i, Fired(t, rearm, now), PendingAmong(who));
    if t.kind == Reestablish {
      assert t.left == 1;
      CountOne(t.remote, who);
    }
  }

  lemma FireFlow(s: State, i: nat, rearm: Rearm, now: int, who: Who)
    requires UdpInv(s) && Guard(s, Fire(i), now)
    ensures Step(s, Fire(i), rearm, now).Done?
    ensures var s' := Step(s, Fire(i), rearm, now).state;
            && Obeys(s, s', UdpLive, FlowOf(s, Fire(i)), who)
            && |s'.peers| == |s.peers| + |FlowOf(s, Fire(i)).liveIn|
  {
    FiredFlow(s, i, rearm, now, who);
    var t := s.tasks[i];
    var s1 := s.(tasks := s.tasks[i := Fired(t, rearm, now)]);
    match t.kind {
      case Ping =>
      case CommLost => CommLostFlow(s1, t.remote, now, who);
      case Reestablish => ConnectFlow(s1, [t.remote], now, who);
    }
  }

  // ---------------------------------------------------------------- conservation

  /** The ledger is kept from the events and the room there was. */
  function Enter(l: Ledger, s: State, e: Event, who: Who): Ledger
    requires |s.peers| <= PEERS_MAX_COUNT && (e.Fire? ==> e.i < |s.tasks|)
  {
    match e
    case Start(remotes) =>
      l.(requested := l.requested + Count(remotes, who), dropped := l.dropped + Count(Refused(s, remotes), who))
    case Say(msg) => l
    case Receive(from, msg) =>
      if msg == "q" then l.(shut := l.shut + Count([from], who))
      else if FindRemote(s, from).Some? then l
      else l.(learned := l.learned + Count([from], who), dropped := l.dropped + Count(Refused(s, [from]), who))
    case Fire(i) =>
      if s.tasks[i].kind == Reestablish
      then l.(dropped := l.dropped + Count(Refused(s, [s.tasks[i].remote]), who))
      else l
  }

  lemma StepBalances(s: State, e: Event, rearm: Rearm, now: int, who: Who, l: Ledger)
    requires UdpInv(s) && Guard(s, e, now) && Step(s, e, rearm, now).Done? && Balanced(s, UdpLive, who, l)
    ensures Balanced(Step(s, e, rearm, now).state, UdpLive, who, Enter(l, s, e, who))
  {
    StepFlow(s, e, rearm, now, who);
    FlowBalances(s, Step(s, e, rearm, now).state, e, who, l);
  }

  lemma FlowBalances(s: State, s': State, e: Event, who: Who, l: Ledger)
    requires |s.peers| <= PEERS_MAX_COUNT && (e.Fire? ==> e.i < |s.tasks|)
    requires Obeys(s, s', UdpLive, FlowOf(s, e), who) && Balanced(s, UdpLive, who, l)
    ensures Balanced(s', UdpLive, who, Enter(l, s, e, who))
  {
    match e {
      case Start(remotes) => AdmittedOrRefused(s, remotes, who);
      case Say(msg) =>
      case Receive(from, msg) => AdmittedOrRefused(s, [from], who);
      case Fire(i) => FireBalances(s, s', i, who, l);
    }
  }

  lemma FireBalances(s: State, s': State, i: nat, who: Who, l: Ledger)
    requires |s.peers| <= PEERS_MAX_COUNT && i < |s.tasks|
    requires Obeys(s, s', UdpLive, FlowOf(s, Fire(i)), who) && Balanced(s, UdpLive, who, l)
    ensures Balanced(s', UdpLive, who, Enter(l, s, Fire(i), who))
  {
    var r := s.tasks[i].remote;
    match s.tasks[i].kind {
      case Ping => assert FlowOf(s, Fire(i)) == Flow([], [], [], []);
      case CommLost => assert FlowOf(s, Fire(i)) == Flow([], [r], [r], []);
      case Reestablish =>
        assert FlowOf(s, Fire(i)) == Flow(Admitted(s, [r]), [], [], [r]);
        AdmittedOrRefused(s, [r], who);
    }
  }

  function LedgerOf(l: Ledger, s: State, evs: seq<Timed>, rearm: Rearm, who: Who): Ledger
    requires UdpInv(s) && Runs(s, evs, rearm)
    decreases |evs|
  {
    if evs == [] then l
    else
      var e := evs[0];
      StepKeepsInv(s, e.event, rearm, e.now);
      LedgerOf(Enter(l, s, e.event, who), Step(s, e.event, rearm, e.now).state, evs[1..], rearm, who)
  }

  lemma {:induction false} RunsBalance(s: State, evs: seq<Timed>, rearm: Rearm, who: Who, l: Ledger)
    requires UdpInv(s) && Runs(s, evs, rearm) && Balanced(s, UdpLive, who, l)
    ensures Balanced(After(s, evs, rearm), UdpLive, who, LedgerOf(l, s, evs, rearm, who))
    decreases |evs|
  {
    if evs != [] {
      var e := evs[0];
      StepKeepsInv(s, e.event, rearm, e.now);
      StepBalances(s, e.event, rearm, e.now, who, l);
      RunsBalance(Step(s, e.event, rearm, e.now).state, evs[1..], rearm, who, Enter(l, s, e.event, who));
    }
  }

  /** In every run, per remote and in all: live slots and pending reconnects are the connects asked for
      and the peers learned, less the goodbyes and the attempts for which there was no slot. A pending
      reconnect never has the cleared port of a removed slot. */
  lemma UdpConservation(protocol: Protocol, fd: int, evs: seq<Timed>, rearm: Rearm, who: Who)
    requires IsUdp(protocol) && Runs(Initial(protocol, fd), evs, rearm)
    ensures UdpInv(Initial(protocol, fd))
    ensures var s := After(Initial(protocol, fd), evs, rearm);
            var l := LedgerOf(EMPTY_LEDGER, Initial(protocol, fd), evs, rearm, who);
            && LiveCount(s, UdpLive, who) + PendingCount(s, who) + l.shut + l.dropped == l.requested + l.learned
            && forall i :: 0 <= i < |s.tasks| && s.tasks[i].kind == Reestablish ==> s.tasks[i].remote.port != 0
  {
    InitialIsOk(protocol, fd);
    RunsKeepInv(Initial(protocol, fd), evs, rearm);
    RunsBalance(Initial(protocol, fd), evs, rearm, who, EMPTY_LEDGER);
    var s := After(Initial(protocol, fd), evs, rearm);
    forall i | 0 <= i < |s.tasks|
      ensures s.tasks[i].remote.port != 0
    {
      assert TaskOk(s, i);
    }
  }

  // ---------------------------------------------------------------- churn

  /** Slots filled, plus one for a comm-lost, a goodbye or a reconnect attempt. */
  function Churn(s: State, e: Event): nat
    requires |s.peers| <= PEERS_MAX_COUNT && (e.Fire? ==> e.i < |s.tasks|)
  {
    var f := FlowOf(s, e);
    |f.liveIn| + |f.liveOut| + |f.pendingOut|
  }

  function TotalChurn(s: State, evs: seq<Timed>, rearm: Rearm): nat
    requires UdpInv(s) && Runs(s, evs, rearm)
    decreases |evs|
  {
    if evs == [] then 0
    else
      var e := evs[0];
      StepKeepsInv(s, e.event, rearm, e.now);
      Churn(s, e.event) + TotalChurn(Step(s, e.event, rearm, e.now).state, evs[1..], rearm)
  }

  /** Each unit of churn uses up weight for good. */
  lemma StepSpendsWeight(s: State, e: Event, rearm: Rearm, now: int)
    requires UdpInv(s) && Guard(s, e, now) && Step(s, e, rearm, now).Done?
    ensures Weight(Step(s, e, rearm, now).state, UdpLive) + Churn(s, e) <= Weight(s, UdpLive)
  {
    StepFlow(s, e, rearm, now, Anyone);
    var f := FlowOf(s, e);
    CountAnyone(f.liveIn);
    CountAnyone(f.liveOut);
    CountAnyone(f.pendingIn);
    CountAnyone(f.pendingOut);
  }

  lemma {:induction false} RunsSpendWeight(s: State, evs: seq<Timed>, rearm: Rearm)
    requires UdpInv(s) && Runs(s, evs, rearm)
    ensures Weight(After(s, evs, rearm), UdpLive) + TotalChurn(s, evs, rearm) <= Weight(s, UdpLive)
    ensures |After(s, evs, rearm).peers| <= PEERS_MAX_COUNT
    decreases |evs|
  {
    if evs != [] {
      var e := evs[0];
      StepKeepsInv(s, e.event, rearm, e.now);
      StepSpendsWeight(s, e.event, rearm, e.now);
      RunsSpendWeight(Step(s, e.event, rearm, e.now).state, evs[1..], rearm);
    }
  }

  /** However long a socket runs, it sees at most thirty comm-ups, comm-losts, goodbyes and reconnects. */
  lemma UdpChurnIsBounded(protocol: Protocol, fd: int, evs: seq<Timed>, rearm: Rearm)
    requires IsUdp(protocol) && Runs(Initial(protocol, fd), evs, rearm)
    ensures UdpInv(Initial(protocol, fd))
    ensures TotalChurn(Initial(protocol, fd), evs, rearm) <= 30
  {
    InitialIsOk(protocol, fd);
    RunsSpendWeight(Initial(protocol, fd), evs, rearm);
  }

  // ---------------------------------------------------------------- slots

  lemma {:induction false} ConnectKeepsSlots(s: State, remotes: seq<Remote>, now: int)
    ensures |ConnectUdp(s, remotes, now).peers| >= |s.peers|
    ensures ConnectUdp(s, remotes, now).peers[..|s.peers|] == s.peers
    decreases |remotes|
  {
    if remotes != [] {
      var s1 := CommUpUdp(s, remotes[0], now);
      ConnectKeepsSlots(s1, remotes[1..], now);
      assert s1.peers[..|s.peers|] == s.peers;
      assert ConnectUdp(s, remotes, now).peers[..|s.peers|] == s1.peers[..|s.peers|];
    }
  }

  lemma StepKeepsSlots(s: State, e: Event, rearm: Rearm, now: int, j: nat)
    requires Guard(s, e, now) && Step(s, e, rearm, now).Done? && j < |s.peers|
    ensures var s' := Step(s, e, rearm, now).state;
            j < |s'.peers| && (s'.peers[j] == s.peers[j] || s'.peers[j] == Tombstone(s.protocol, s.peers[j]))
  {
    match e {
      case Start(remotes) =>
        ConnectKeepsSlots(s, remotes, now);
        assert s.peers[j] == ConnectUdp(s, remotes, now).peers[..|s.peers|][j];
      case Say(msg) =>
      case Receive(from, msg) =>
      case Fire(i) =>
        var s1 := s.(tasks := s.tasks[i := Fired(s.tasks[i], rearm, now)]);
        ConnectKeepsSlots(s1, [s.tasks[i].remote], now);
        assert s.peers[j] == ConnectUdp(s1, [s.tasks[i].remote], now).peers[..|s.peers|][j];
    }
  }

  /** A slot given up is never used again, in any run. */
  lemma {:induction false} DeadSlotsStayDead(s: State, evs: seq<Timed>, rearm: Rearm, j: nat)
    requires Runs(s, evs, rearm) && j < |s.peers| && !UdpLive(s.peers[j])
    ensures j < |After(s, evs, rearm).peers| && !UdpLive(After(s, evs, rearm).peers[j])
    decreases |evs|
  {
    if evs != [] {
      StepKeepsSlots(s, evs[0].event, rearm, evs[0].now, j);
      DeadSlotsStayDead(Step(s, evs[0].event, rearm, evs[0].now).state, evs[1..], rearm, j);
    }
  }

  // ---------------------------------------------------------------- pings and acknowledgements

  /** The times task h fires in a run. */
  function Firings(evs: seq<Timed>, h: nat): nat {
    if evs == [] then 0
    else (if evs[0].event == Fire(h) then 1 else 0) + Firings(evs[1..], h)
  }

  /** A message resets task h. */
  predicate Resets(s: State, e: Event, h: nat) {
    && e.Receive? && e.msg != QUIT_MSG
    && var found := FindRemote(s, e.from);
       found.Some? && (s.peers[found.value].ping == Some(h) || s.peers[found.value].commLost == Some(h))
  }

  predicate NeverReset(s: State, evs: seq<Timed>, rearm: Rearm, h: nat)
    requires Runs(s, evs, rearm)
    decreases |evs|
  {
    evs != [] ==>
      && !Resets(s, evs[0].event, h)
      && NeverReset(Step(s, evs[0].event, rearm, evs[0].now).state, evs[1..], rearm, h)
  }

  lemma {:induction false} ConnectOnlyAddsTasks(s: State, remotes: seq<Remote>, now: int)
    ensures |ConnectUdp(s, remotes, now).tasks| >= |s.tasks|
    ensures ConnectUdp(s, remotes, now).tasks[..|s.tasks|] == s.tasks
    ensures ConnectUdp(s, remotes, now).sent == s.sent
    decreases |remotes|
  {
    if remotes != [] {
      var s1 := CommUpUdp(s, remotes[0], now);
      ConnectOnlyAddsTasks(s1, remotes[1..], now);
      assert s1.tasks[..|s.tasks|] == s.tasks;
      assert ConnectUdp(s, remotes, now).tasks[..|s.tasks|] == s1.tasks[..|s.tasks|];
    }
  }

  /** An event that neither fires nor resets a task leaves its repetitions. */
  lemma OthersKeepRepetitions(s: State, e: Event, rearm: Rearm, now: int, h: nat)
    requires UdpInv(s) && Guard(s, e, now) && Step(s, e, rearm, now).Done? && h < |s.tasks| && !Resets(s, e, h)
    ensures var s' := Step(s, e, rearm, now).state;
            h < |s'.tasks| && s'.tasks[h].left + (if e == Fire(h) then 1 else 0) == s.tasks[h].left
  {
    match e {
      case Start(remotes) =>
        ConnectOnlyAddsTasks(s, remotes, now);
        assert s.tasks[h] == ConnectUdp(s, remotes, now).tasks[..|s.tasks|][h];
      case Say(msg) =>
      case Receive(from, msg) =>
        var found := FindRemote(s, from);
        if found.Some? {
          assert SlotOk(s, found.value);
        }
      case Fire(i) => FiringCounts(s, i, rearm, now, h);
    }
  }

  lemma FiringCounts(s: State, i: nat, rearm: Rearm, now: int, h: nat)
    requires i < |s.tasks| && h < |s.tasks| && s.tasks[i].Enabled() && FireUdp(s, i, rearm, now).Done?
    ensures var s' := FireUdp(s, i, rearm, now).state;
            h < |s'.tasks| && s'.tasks[h].left + (if h == i then 1 else 0) == s.tasks[h].left
  {
    var r := s.tasks[i].remote;
    var s1 := s.(tasks := s.tasks[i := Fired(s.tasks[i], rearm, now)]);
    if s.tasks[i].kind == Reestablish {
      ConnectOnlyAddsTasks(s1, [r], now);
      assert s1.tasks[h] == ConnectUdp(s1, [r], now).tasks[..|s.tasks|][h];
    }
  }

  /** Between two resets of a slot its ping fires at most three times, whatever else happens. */
  lemma {:induction false} PingsBetweenResets(s: State, evs: seq<Timed>, rearm: Rearm, h: nat)
    requires UdpInv(s) && Runs(s, evs, rearm) && h < |s.tasks| && NeverReset(s, evs, rearm, h)
    ensures h < |After(s, evs, rearm).tasks|
    ensures Firings(evs, h) + After(s, evs, rearm).tasks[h].left == s.tasks[h].left <= KEEP_ALIVE_PROBES
    decreases |evs|
  {
    assert TaskOk(s, h);
    if evs != [] {
      var e := evs[0];
      StepKeepsInv(s, e.event, rearm, e.now);
      OthersKeepRepetitions(s, e.event, rearm, e.now, h);
      PingsBetweenResets(Step(s, e.event, rearm, e.now).state, evs[1..], rearm, h);
    }
  }

  /** What one event makes the socket send without being told to. */
  function Reaction(s: State, e: Event): seq<Sent>
    requires e.Fire? ==> e.i < |s.tasks|
  {
    match e
    case Start(remotes) => []
    case Say(msg) => Addressed(Targets(ByRemote, s.peers), msg)
    case Receive(from, msg) => if msg == "ka" then [Sent(RemoteKey(from), "kack")] else []
    case Fire(i) => if s.tasks[i].kind == Ping then [Sent(RemoteKey(s.tasks[i].remote), "ka")] else []
  }

  lemma StepSends(s: State, e: Event, rearm: Rearm, now: int)
    requires UdpInv(s) && Guard(s, e, now) && Step(s, e, rearm, now).Done?
    ensures Step(s, e, rearm, now).state.sent == s.sent + Reaction(s, e)
  {
    match e {
      case Start(remotes) => ConnectOnlyAddsTasks(s, remotes, now);
      case Say(msg) =>
      case Receive(from, msg) =>
      case Fire(i) =>
        FiringIsSafe(s, i, rearm, now);
        ConnectOnlyAddsTasks(s.(tasks := s.tasks[i := Fired(s.tasks[i], rearm, now)]), [s.tasks[i].remote], now);
    }
  }
}
