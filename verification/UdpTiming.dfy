/** The timing of failure detection on one node, whatever the rest of the network does. */
module UdpTiming {
  import opened Sockets
  import opened SocketUdp
  import opened UdpOwnership
  import opened UdpAccounts
  import opened UdpDetection
  import opened Accounts

  const DETECTION_TIME := KEEP_ALIVE_PERIOD * (KEEP_ALIVE_PROBES + 1)

  /** Launches are at most `period` apart. When the scheduler counts the next repetition from now,
      each ping can be late by one period more than the one before. */
  datatype Pace = Pace(rearm: Rearm, period: nat) {
    function Creep(): nat { if rearm == FromNow then period else 0 }
    /** How late the third ping can be. */
    function Late(): (r: nat)
      ensures r == if rearm == FromDue then period else 3 * period
    {
      period + 2 * Creep()
    }
  }

  // ---------------------------------------------------------------- one slot among the others

  /** Slot j with remote r, its ping task and its comm-lost task. */
  datatype Watch = Watch(j: nat, r: Remote, ping: nat, commLost: nat)

  /** The slot is the only one for its remote, and no reconnect towards the remote is pending. */
  predicate Tracks(s: State, w: Watch) {
    && w.j < |s.peers| && s.peers[w.j].remote == w.r && w.r.port != 0
    && w.ping < |s.tasks| && s.peers[w.j].ping == Some(w.ping)
    && w.commLost < |s.tasks| && s.peers[w.j].commLost == Some(w.commLost)
    && (forall k :: 0 <= k < |s.peers| && k != w.j ==> s.peers[k].remote != w.r)
    && NoReconnect(s, w.r)
  }

  predicate NoReconnect(s: State, r: Remote) {
    forall i :: 0 <= i < |s.tasks| && s.tasks[i].kind == Reestablish && s.tasks[i].Enabled() ==> s.tasks[i].remote != r
  }

  predicate Concerns(e: Event, w: Watch) {
    match e
    case Start(remotes) => w.r in remotes
    case Fire(i) => i == w.ping || i == w.commLost
    case Receive(from, msg) => from == w.r
    case Say(msg) => false
  }

  predicate Same(s: State, s': State, w: Watch) {
    && Tracks(s, w) && Tracks(s', w)
    && s'.tasks[w.ping] == s.tasks[w.ping] && s'.tasks[w.commLost] == s.tasks[w.commLost]
  }

  lemma CommUpKeepsWatch(s: State, w: Watch, r: Remote, now: int)
    requires Tracks(s, w) && r != w.r
    ensures Same(s, CommUpUdp(s, r, now), w)
  {
  }

  lemma {:induction false} ConnectKeepsWatch(s: State, w: Watch, remotes: seq<Remote>, now: int)
    requires Tracks(s, w) && w.r !in remotes
    ensures Same(s, ConnectUdp(s, remotes, now), w)
    decreases |remotes|
  {
    if remotes != [] {
      CommUpKeepsWatch(s, w, remotes[0], now);
      ConnectKeepsWatch(CommUpUdp(s, remotes[0], now), w, remotes[1..], now);
    }
  }

  lemma RemovalKeepsWatch(s: State, w: Watch, k: nat)
    requires UdpInv(s) && Tracks(s, w) && k < |s.peers| && k != w.j
    ensures Same(s, RemoveAt(s, k), w)
  {
    assert SlotOk(s, k) && SlotOk(s, w.j);
    assert forall i :: 0 <= i < |s.tasks| ==> RemoveAt(s, k).tasks[i] == s.tasks[i].(cancelled := RemoveAt(s, k).tasks[i].cancelled);
  }

  /** Only the slot's own comm-lost task can give the slot up by firing. */
  lemma ForeignFiring(s: State, w: Watch, i: nat)
    requires UdpInv(s) && Tracks(s, w) && i < |s.tasks| && s.tasks[i].Enabled() && s.tasks[i].remote == w.r
    ensures i == w.ping || i == w.commLost
  {
    assert TaskOk(s, i);
    var j :| 0 <= j < |s.peers| && Owns(s, j, i);
    assert SlotOk(s, j);
  }

  lemma OthersKeepWatch(s: State, w: Watch, e: Event, rearm: Rearm, now: int)
    requires UdpInv(s) && Tracks(s, w) && Guard(s, e, now) && Step(s, e, rearm, now).Done? && !Concerns(e, w)
    ensures Same(s, Step(s, e, rearm, now).state, w)
  {
    match e {
      case Start(remotes) => ConnectKeepsWatch(s, w, remotes, now);
      case Say(msg) =>
      case Receive(from, msg) => StrangerKeepsWatch(s, w, from, msg, now);
      case Fire(i) =>
        var t := s.tasks[i];
        if t.remote == w.r {
          ForeignFiring(s, w, i);
        }
        var s1 := s.(tasks := s.tasks[i := Fired(t, rearm, now)]);
        CountdownIsFree(s, s1);
        assert TaskOk(s, i);
        match t.kind {
          case Ping =>
          case CommLost => CommLostKeepsWatch(s1, w, t.remote, now);
          case Reestablish => ConnectKeepsWatch(s1, w, [t.remote], now);
        }
    }
  }

  lemma CommLostKeepsWatch(s: State, w: Watch, r: Remote, now: int)
    requires UdpInv(s) && Tracks(s, w) && r != w.r && r.port != 0 && CommLostUdp(s, r, now).Done?
    ensures Same(s, CommLostUdp(s, r, now).state, w)
  {
    var s1 := AddTask(s, Reestablish, r, now);
    ReconnectTaskKeepsInv(s, r, now);
    RemovalKeepsWatch(s1, w, FindRemote(s, r).value);
  }

  lemma StrangerKeepsWatch(s: State, w: Watch, from: Remote, msg: string, now: int)
    requires UdpInv(s) && Tracks(s, w) && from != w.r && from.port != 0 && HandleUdp(s, from, msg, now).Done?
    ensures Same(s, HandleUdp(s, from, msg, now).state, w)
  {
    var found := FindRemote(s, from);
    var s1 := if msg == KEEP_ALIVE_MSG then SendTo(s, from, KEEP_ALIVE_ACK_MSG) else s;
    if found.None? {
      CommUpKeepsWatch(s1, w, from, now);
    } else if msg == QUIT_MSG {
      RemovalKeepsWatch(s, w, found.value);
    } else {
      assert SlotOk(s, found.value) && SlotOk(s, w.j);
      var p := s.peers[found.value];
      assert TaskOk(s, p.ping.value) && TaskOk(s, p.commLost.value);
    }
  }

  /** A message from the remote resets both its tasks. */
  lemma MessageResets(s: State, w: Watch, msg: string, now: int)
    requires UdpInv(s) && Tracks(s, w) && msg != QUIT_MSG
    ensures HandleUdp(s, w.r, msg, now).Done?
    ensures var s' := HandleUdp(s, w.r, msg, now).state;
            && Tracks(s', w)
            && s'.tasks[w.ping] == Reset(s.tasks[w.ping], now) && s'.tasks[w.commLost] == Reset(s.tasks[w.commLost], now)
  {
    assert SlotOk(s, w.j);
    assert FindRemote(s, w.r) == Some(w.j);
  }

  lemma PingFires(s: State, w: Watch, rearm: Rearm, now: int)
    requires UdpInv(s) && Tracks(s, w) && Guard(s, Fire(w.ping), now)
    ensures var o := Step(s, Fire(w.ping), rearm, now);
            && o.Done? && Tracks(o.state, w)
            && o.state.tasks[w.ping] == Fired(s.tasks[w.ping], rearm, now)
            && o.state.tasks[w.commLost] == s.tasks[w.commLost]
            && o.state.sent == s.sent + [Sent(RemoteKey(w.r), KEEP_ALIVE_MSG)]
  {
    assert SlotOk(s, w.j);
  }

  // ---------------------------------------------------------------- a clocked node

  datatype Clocked = Clocked(s: State, now: int, lastLaunch: int)

  /** A launch runs every task that is due, in any order, and then ends. */
  datatype Tick = Local(at: int, event: Event) | LaunchEnd(at: int)

  predicate NothingDue(s: State, now: int) {
    forall i :: 0 <= i < |s.tasks| && s.tasks[i].Enabled() ==> s.tasks[i].due > now
  }

  predicate TickGuard(c: Clocked, pace: Pace, t: Tick) {
    && c.now <= t.at <= c.lastLaunch + pace.period
    && match t
       case Local(at, e) => Guard(c.s, e, at) && Step(c.s, e, pace.rearm, at).Done?
       case LaunchEnd(at) => NothingDue(c.s, at)
  }

  function TickStep(c: Clocked, pace: Pace, t: Tick): Clocked
    requires TickGuard(c, pace, t)
  {
    match t
    case Local(at, e) => Clocked(Step(c.s, e, pace.rearm, at).state, at, c.lastLaunch)
    case LaunchEnd(at) => Clocked(c.s, at, at)
  }

  predicate Ticks(c: Clocked, pace: Pace, ts: seq<Tick>)
    decreases |ts|
  {
    ts != [] ==> TickGuard(c, pace, ts[0]) && Ticks(TickStep(c, pace, ts[0]), pace, ts[1..])
  }

  function AfterTicks(c: Clocked, pace: Pace, ts: seq<Tick>): Clocked
    requires Ticks(c, pace, ts)
    decreases |ts|
  {
    if ts == [] then c else AfterTicks(TickStep(c, pace, ts[0]), pace, ts[1..])
  }

  // ---------------------------------------------------------------- the rhythm of a slot

  /** The slot was last reset at time `reset`; its pings keep their dates and comm-lost has not fired. */
  predicate Rhythm(s: State, lastLaunch: int, w: Watch, reset: int, pace: Pace) {
    && Tracks(s, w)
    && var p, l := s.tasks[w.ping], s.tasks[w.commLost];
       && p.kind == Ping && !p.cancelled && p.delay == 1000 && p.left <= 3
       && l.left == 1 && l.due == reset + 4000
       && (p.left == 3 ==> lastLaunch < p.due && p.due == reset + 1000)
       && (p.left == 2 ==> lastLaunch < p.due && reset + 2000 <= p.due <= reset + 2000 + pace.Creep())
       && (p.left == 1 ==> lastLaunch < p.due && reset + 3000 <= p.due <= reset + 3000 + 2 * pace.Creep())
  }

  lemma ResetStartsRhythm(s: State, lastLaunch: int, w: Watch, msg: string, now: int, pace: Pace)
    requires UdpInv(s) && Tracks(s, w) && msg != QUIT_MSG && lastLaunch <= now
    ensures HandleUdp(s, w.r, msg, now).Done?
    ensures Rhythm(HandleUdp(s, w.r, msg, now).state, lastLaunch, w, now, pace)
    ensures HandleUdp(s, w.r, msg, now).state.tasks[w.ping].left == KEEP_ALIVE_PROBES
  {
    MessageResets(s, w, msg, now);
    assert SlotOk(s, w.j) && TaskOk(s, w.ping) && TaskOk(s, w.commLost);
  }

  /** So does a new slot, if its remote has no other slot and no reconnect pending. */
  lemma CommUpStartsRhythm(s: State, lastLaunch: int, r: Remote, now: int, pace: Pace)
    requires UdpInv(s) && !Full(s) && lastLaunch <= now && r.port != 0
    requires FindRemote(s, r).None? && NoReconnect(s, r)
    ensures var s', w := CommUpUdp(s, r, now), Watch(|s.peers|, r, |s.tasks|, |s.tasks| + 1);
            Rhythm(s', lastLaunch, w, now, pace) && s'.tasks[w.ping].left == KEEP_ALIVE_PROBES
  {
  }

  /** While comm-lost is not due, every event but a message from the remote keeps the rhythm. */
  lemma EventKeepsRhythm(s: State, lastLaunch: int, w: Watch, reset: int, pace: Pace, e: Event, now: int)
    requires UdpInv(s) && Rhythm(s, lastLaunch, w, reset, pace) && now <= lastLaunch + pace.period
    requires Guard(s, e, now) && Step(s, e, pace.rearm, now).Done?
    requires e != Fire(w.commLost) && !(e.Receive? && e.from == w.r) && !(e.Start? && w.r in e.remotes)
    ensures Rhythm(Step(s, e, pace.rearm, now).state, lastLaunch, w, reset, pace)
    ensures Step(s, e, pace.rearm, now).state.tasks[w.ping].left
            == s.tasks[w.ping].left - (if e == Fire(w.ping) then 1 else 0)
  {
    if e == Fire(w.ping) {
      PingFires(s, w, pace.rearm, now);
    } else {
      OthersKeepWatch(s, w, e, pace.rearm, now);
    }
  }

  /** The remote stands in the list once, at place j. */
  predicate OnlyAt(remotes: seq<Remote>, j: nat, r: Remote) {
    j < |remotes| && remotes[j] == r && forall k :: 0 <= k < |remotes| && k != j ==> remotes[k] != r
  }

  /** Each remote of a list is watched through a slot of its own, if there is one left for it. */
  lemma {:induction false} ConnectStartsRhythm(s: State, remotes: seq<Remote>, j: nat, r: Remote, lastLaunch: int, now: int, pace: Pace)
    requires UdpInv(s) && (forall x :: x in remotes ==> x.port != 0) && OnlyAt(remotes, j, r)
    requires |s.peers| + j < PEERS_MAX_COUNT && FindRemote(s, r).None? && NoReconnect(s, r) && lastLaunch <= now
    ensures var s', w := ConnectUdp(s, remotes, now), Watch(|s.peers| + j, r, |s.tasks| + 2 * j, |s.tasks| + 2 * j + 1);
            Rhythm(s', lastLaunch, w, now, pace) && s'.tasks[w.ping].left == KEEP_ALIVE_PROBES
    decreases |remotes|
  {
    var s1 := CommUpUdp(s, remotes[0], now);
    CommUpKeepsInv(s, remotes[0], now);
    if j == 0 {
      CommUpStartsRhythm(s, lastLaunch, r, now, pace);
      ConnectKeepsWatch(s1, Watch(|s.peers|, r, |s.tasks|, |s.tasks| + 1), remotes[1..], now);
    } else {
      assert remotes[0] != r;
      ConnectStartsRhythm(s1, remotes[1..], j - 1, r, lastLaunch, now, pace);
    }
  }

  /** Every remote that a start names once and finds room for begins the rhythm at the start. */
  lemma StartStartsRhythm(s: State, remotes: seq<Remote>, j: nat, r: Remote, lastLaunch: int, pace: Pace, now: int)
    requires UdpInv(s) && Guard(s, Start(remotes), now) && OnlyAt(remotes, j, r) && |s.peers| + j < 10
    requires FindRemote(s, r).None? && NoReconnect(s, r) && lastLaunch <= now
    ensures Step(s, Start(remotes), pace.rearm, now).Done?
    ensures var s', w := Step(s, Start(remotes), pace.rearm, now).state,
                         Watch(|s.peers| + j, r, |s.tasks| + 2 * j, |s.tasks| + 2 * j + 1);
            Rhythm(s', lastLaunch, w, now, pace) && s'.tasks[w.ping].left == 3
  {
    ConnectStartsRhythm(s, remotes, j, r, lastLaunch, now, pace);
  }

  /** Task i is the one pending reconnect to r, which has no slot. */
  predicate LastReconnect(s: State, i: nat, r: Remote) {
    && i < |s.tasks| && s.tasks[i].kind == Reestablish && s.tasks[i].Enabled() && s.tasks[i].remote == r
    && (forall k :: 0 <= k < |s.peers| ==> s.peers[k].remote != r)
    && (forall k :: 0 <= k < |s.tasks| && k != i && s.tasks[k].kind == Reestablish && s.tasks[k].Enabled() ==>
          s.tasks[k].remote != r)
  }

  /** So does the remote of a reconnect when it fires, and the reconnect is used up; with a full table it comes to nothing. */
  lemma ReconnectStartsRhythm(s: State, i: nat, r: Remote, lastLaunch: int, pace: Pace, now: int)
    requires UdpInv(s) && Guard(s, Fire(i), now) && LastReconnect(s, i, r) && lastLaunch <= now
    ensures Step(s, Fire(i), pace.rearm, now).Done?
    ensures var s', w := Step(s, Fire(i), pace.rearm, now).state, Watch(|s.peers|, r, |s.tasks|, |s.tasks| + 1);
            && i < |s'.tasks| && !s'.tasks[i].Enabled()
            && if Full(s) then s'.peers == s.peers && |s'.tasks| == |s.tasks|
               else Rhythm(s', lastLaunch, w, now, pace) && s'.tasks[w.ping].left == 3
  {
    assert TaskOk(s, i);
    var s1 := s.(tasks := s.tasks[i := Fired(s.tasks[i], pace.rearm, now)]);
    CountdownIsFree(s, s1);
    assert ConnectUdp(s1, [r], now) == CommUpUdp(s1, r, now) by {
      assert [r][1..] == [];
    }
    if !Full(s) {
      assert OnlyAt([r], 0, r);
      ConnectStartsRhythm(s1, [r], 0, r, lastLaunch, now, pace);
    }
  }

  lemma LaunchKeepsRhythm(s: State, lastLaunch: int, w: Watch, reset: int, pace: Pace, now: int)
    requires Rhythm(s, lastLaunch, w, reset, pace) && NothingDue(s, now)
    ensures Rhythm(s, now, w, reset, pace)
  {
  }

  // ---------------------------------------------------------------- detection

  /** Nothing arrives from r, and no one asks for a connection to it. */
  predicate Silent(ts: seq<Tick>, r: Remote) {
    forall k :: 0 <= k < |ts| && ts[k].Local? ==>
      && !(ts[k].event.Receive? && ts[k].event.from == r)
      && !(ts[k].event.Start? && r in ts[k].event.remotes)
  }

  function PingsIn(ts: seq<Tick>, ping: nat): nat {
    if ts == [] then 0
    else (if ts[0].Local? && ts[0].event == Fire(ping) then 1 else 0) + PingsIn(ts[1..], ping)
  }

  /** The slot was given up at time `lost`: no slot has the remote, and task i is its one reconnect. */
  predicate Lost(s: State, r: Remote, lost: int, i: nat) {
    && (forall k :: 0 <= k < |s.peers| ==> s.peers[k].remote != r)
    && i < |s.tasks| && s.tasks[i] == NewTask(Reestablish, r, lost) && IsReconnect(s.tasks[i], r, lost)
    && (forall k :: 0 <= k < |s.tasks| && k != i && s.tasks[k].kind == Reestablish && s.tasks[k].Enabled() ==>
          s.tasks[k].remote != r)
  }

  lemma CommLostFires(s: State, w: Watch, rearm: Rearm, now: int)
    requires UdpInv(s) && Tracks(s, w) && Guard(s, Fire(w.commLost), now)
    requires s.tasks[w.ping].kind == Ping && s.tasks[w.commLost].kind == CommLost
    ensures var o := Step(s, Fire(w.commLost), rearm, now);
            o.Done? && Lost(o.state, w.r, now, |s.tasks|) && o.state.tasks[w.ping].cancelled
  {
    assert SlotOk(s, w.j);
    assert FindRemote(s, w.r) == Some(w.j);
    assert UdpLive(s.peers[w.j]);
  }

  lemma {:induction false} ConnectKeepsLost(s: State, remotes: seq<Remote>, now: int, r: Remote, lost: int, i: nat)
    requires Lost(s, r, lost, i) && r !in remotes
    ensures Lost(ConnectUdp(s, remotes, now), r, lost, i)
    decreases |remotes|
  {
    if remotes != [] {
      ConnectKeepsLost(CommUpUdp(s, remotes[0], now), remotes[1..], now, r, lost, i);
    }
  }

  lemma RemovalKeepsLost(s: State, k: nat, r: Remote, lost: int, i: nat)
    requires UdpInv(s) && Lost(s, r, lost, i) && k < |s.peers| && r.port != 0
    ensures Lost(RemoveAt(s, k), r, lost, i)
  {
    assert SlotOk(s, k);
    assert forall h :: 0 <= h < |s.tasks| ==> RemoveAt(s, k).tasks[h] == s.tasks[h].(cancelled := RemoveAt(s, k).tasks[h].cancelled);
  }

  /** Until the reconnect fires nothing brings the remote back, so long as it is silent. */
  lemma EventKeepsLost(s: State, e: Event, rearm: Rearm, now: int, r: Remote, lost: int, i: nat)
    requires UdpInv(s) && Lost(s, r, lost, i) && Guard(s, e, now) && Step(s, e, rearm, now).Done? && r.port != 0
    requires e != Fire(i) && !(e.Receive? && e.from == r) && !(e.Start? && r in e.remotes)
    ensures Lost(Step(s, e, rearm, now).state, r, lost, i)
  {
    match e {
      case Start(remotes) => ConnectKeepsLost(s, remotes, now, r, lost, i);
      case Say(msg) =>
      case Receive(from, msg) => StrangerKeepsLost(s, from, msg, now, r, lost, i);
      case Fire(k) => FiringKeepsLost(s, k, rearm, now, r, lost, i);
    }
  }

  lemma StrangerKeepsLost(s: State, from: Remote, msg: string, now: int, r: Remote, lost: int, i: nat)
    requires UdpInv(s) && Lost(s, r, lost, i) && HandleUdp(s, from, msg, now).Done? && from != r && r.port != 0
    ensures Lost(HandleUdp(s, from, msg, now).state, r, lost, i)
  {
    var found := FindRemote(s, from);
    if found.Some? && msg == QUIT_MSG {
      RemovalKeepsLost(s, found.value, r, lost, i);
    } else if found.Some? {
      assert SlotOk(s, found.value);
    }
  }

  lemma FiringKeepsLost(s: State, k: nat, rearm: Rearm, now: int, r: Remote, lost: int, i: nat)
    requires UdpInv(s) && Lost(s, r, lost, i) && Guard(s, Fire(k), now) && k != i && r.port != 0
    requires Step(s, Fire(k), rearm, now).Done?
    ensures Lost(Step(s, Fire(k), rearm, now).state, r, lost, i)
  {
    var t := s.tasks[k];
    var s1 := s.(tasks := s.tasks[k := Fired(t, rearm, now)]);
    match t.kind {
      case Ping =>
      case CommLost =>
        assert TaskOk(s, k);
        CountdownIsFree(s, s1);
        ReconnectTaskKeepsInv(s1, t.remote, now);
        NoSlotNoTask(s, k, r);
        RemovalKeepsLost(AddTask(s1, Reestablish, t.remote, now), FindRemote(s, t.remote).value, r, lost, i);
      case Reestablish => ConnectKeepsLost(s1, [t.remote], now, r, lost, i);
    }
  }

  lemma NoSlotNoTask(s: State, k: nat, r: Remote)
    requires UdpInv(s) && k < |s.tasks| && s.tasks[k].Enabled() && s.tasks[k].kind != Reestablish
    requires forall j :: 0 <= j < |s.peers| ==> s.peers[j].remote != r
    ensures s.tasks[k].remote != r
  {
    assert TaskOk(s, k);
    var j :| 0 <= j < |s.peers| && Owns(s, j, k);
    assert SlotOk(s, j);
  }

  lemma FiringKeepsCancelled(s: State, i: nat, rearm: Rearm, now: int, h: nat)
    requires i < |s.tasks| && h < |s.tasks| && s.tasks[h].cancelled && FireUdp(s, i, rearm, now).Done?
    ensures var s' := FireUdp(s, i, rearm, now).state; h < |s'.tasks| && s'.tasks[h].cancelled
  {
    var r := s.tasks[i].remote;
    var s1 := s.(tasks := s.tasks[i := Fired(s.tasks[i], rearm, now)]);
    if s.tasks[i].kind == Reestablish {
      ConnectOnlyAddsTasks(s1, [r], now);
      assert s1.tasks[h] == ConnectUdp(s1, [r], now).tasks[..|s.tasks|][h];
    }
  }

  /** A cancelled task stays cancelled. */
  lemma CancelledForGood(s: State, e: Event, rearm: Rearm, now: int, h: nat)
    requires Guard(s, e, now) && Step(s, e, rearm, now).Done? && h < |s.tasks| && s.tasks[h].cancelled
    ensures h < |Step(s, e, rearm, now).state.tasks| && Step(s, e, rearm, now).state.tasks[h].cancelled
  {
    match e {
      case Start(remotes) =>
        ConnectOnlyAddsTasks(s, remotes, now);
        assert s.tasks[h] == ConnectUdp(s, remotes, now).tasks[..|s.tasks|][h];
      case Say(msg) =>
      case Receive(from, msg) =>
      case Fire(i) => FiringKeepsCancelled(s, i, rearm, now, h);
    }
  }

  /** Watching: the slot is live. Gone: it was removed at `lost`. Back: its reconnect has fired. */
  datatype Phase = Watching | Gone(lost: int, i: nat) | Back(lost: int)

  /** All three pings were sent, unless launches are so far apart that comm-lost may overtake the last ones. */
  predicate Spent(pings: nat, pace: Pace) {
    pings <= KEEP_ALIVE_PROBES && (pace.Late() < 1000 ==> pings == KEEP_ALIVE_PROBES)
  }

  ghost predicate InPhase(c: Clocked, pace: Pace, w: Watch, reset: int, pings: nat, f: Phase) {
    && UdpInv(c.s) && c.lastLaunch <= c.now && w.ping < |c.s.tasks| && w.r.port != 0
    && match f
       case Watching =>
         && Rhythm(c.s, c.lastLaunch, w, reset, pace)
         && pings + c.s.tasks[w.ping].left == KEEP_ALIVE_PROBES
         && c.lastLaunch < reset + DETECTION_TIME
       case Gone(lost, i) =>
         && Spent(pings, pace) && c.s.tasks[w.ping].cancelled
         && reset + DETECTION_TIME <= lost <= reset + DETECTION_TIME + pace.period
         && lost <= c.now && c.lastLaunch < lost + 5000
         && Lost(c.s, w.r, lost, i)
       case Back(lost) =>
         && Spent(pings, pace) && c.s.tasks[w.ping].cancelled
         && reset + DETECTION_TIME <= lost <= reset + DETECTION_TIME + pace.period
         && lost + 5000 <= c.now
  }

  function PingOf(t: Tick, w: Watch): nat {
    if t.Local? && t.event == Fire(w.ping) then 1 else 0
  }

  /** The tick is the firing of a reconnect to r between the two times; if there is room for it, r has a slot from
      then on whose three pings and comm-lost count from the firing. */
  predicate Reconnecting(c: Clocked, pace: Pace, t: Tick, r: Remote, earliest: int, latest: int)
    requires TickGuard(c, pace, t)
  {
    && t.Local? && t.event.Fire? && c.s.tasks[t.event.i].kind == Reestablish && c.s.tasks[t.event.i].remote == r
    && earliest <= t.at <= latest
    && var s' := TickStep(c, pace, t).s;
       Full(c.s) || (&& Rhythm(s', c.lastLaunch, Watch(|c.s.peers|, r, |c.s.tasks|, |c.s.tasks| + 1), t.at, pace)
                     && s'.tasks[|c.s.tasks|].left == 3)
  }

  /** One of the ticks does. */
  predicate Reconnects(c: Clocked, pace: Pace, ts: seq<Tick>, r: Remote, earliest: int, latest: int)
    requires Ticks(c, pace, ts)
    decreases |ts|
  {
    ts != [] && (Reconnecting(c, pace, ts[0], r, earliest, latest) || Reconnects(TickStep(c, pace, ts[0]), pace, ts[1..], r, earliest, latest))
  }

  lemma TickKeepsPhase(c: Clocked, pace: Pace, w: Watch, reset: int, pings: nat, f: Phase, t: Tick) returns (g: Phase)
    requires InPhase(c, pace, w, reset, pings, f) && TickGuard(c, pace, t) && Silent([t], w.r)
    ensures InPhase(TickStep(c, pace, t), pace, w, reset, pings + PingOf(t, w), g)
    ensures f.Back? ==> g == f
    ensures g.Back? && !f.Back? ==> Reconnecting(c, pace, t, w.r, g.lost + 5000, g.lost + 5000 + pace.period)
  {
    assert t == [t][0];
    match t {
      case LaunchEnd(at) =>
        if f.Watching? {
          assert SlotOk(c.s, w.j);
          assert c.s.tasks[w.commLost].Enabled();
        }
        g := f;
      case Local(at, e) =>
        StepKeepsInv(c.s, e, pace.rearm, at);
        match f {
          case Watching => g := WatchingTick(c, pace, w, reset, pings, at, e);
          case Gone(lost, i) =>
            CancelledForGood(c.s, e, pace.rearm, at, w.ping);
            if e == Fire(i) {
              ReconnectStartsRhythm(c.s, i, w.r, c.lastLaunch, pace, at);
              g := Back(lost);
            } else {
              EventKeepsLost(c.s, e, pace.rearm, at, w.r, lost, i);
              g := f;
            }
          case Back(lost) =>
            CancelledForGood(c.s, e, pace.rearm, at, w.ping);
            g := f;
        }
    }
  }

  lemma WatchingTick(c: Clocked, pace: Pace, w: Watch, reset: int, pings: nat, at: int, e: Event) returns (g: Phase)
    requires InPhase(c, pace, w, reset, pings, Watching) && TickGuard(c, pace, Local(at, e))
    requires !(e.Receive? && e.from == w.r) && !(e.Start? && w.r in e.remotes)
    requires UdpInv(Step(c.s, e, pace.rearm, at).state)
    ensures InPhase(TickStep(c, pace, Local(at, e)), pace, w, reset, pings + PingOf(Local(at, e), w), g) && !g.Back?
  {
    if e == Fire(w.commLost) {
      assert SlotOk(c.s, w.j);
      assert pace.Late() < 1000 ==> c.s.tasks[w.ping].left == 0;
      CommLostFires(c.s, w, pace.rearm, at);
      g := Gone(at, |c.s.tasks|);
    } else {
      EventKeepsRhythm(c.s, c.lastLaunch, w, reset, pace, e, at);
      g := Watching;
    }
  }

  lemma SilentAllAlong(ts: seq<Tick>, r: Remote)
    requires Silent(ts, r) && ts != []
    ensures Silent([ts[0]], r) && Silent(ts[1..], r)
  {
    assert forall k :: 0 <= k < |ts| - 1 ==> ts[1..][k] == ts[k + 1];
  }

  lemma {:induction false} TicksKeepPhase(c: Clocked, pace: Pace, w: Watch, reset: int, pings: nat, f: Phase, ts: seq<Tick>) returns (g: Phase)
    requires InPhase(c, pace, w, reset, pings, f) && Ticks(c, pace, ts) && Silent(ts, w.r)
    ensures InPhase(AfterTicks(c, pace, ts), pace, w, reset, pings + PingsIn(ts, w.ping), g)
    ensures f.Back? ==> g == f
    ensures g.Back? && !f.Back? ==> Reconnects(c, pace, ts, w.r, g.lost + 5000, g.lost + 5000 + pace.period)
    decreases |ts|
  {
    if ts == [] {
      g := f;
    } else {
      SilentAllAlong(ts, w.r);
      var g1 := TickKeepsPhase(c, pace, w, reset, pings, f, ts[0]);
      var c1, pings1 := TickStep(c, pace, ts[0]), pings + PingOf(ts[0], w);
      assert AfterTicks(c, pace, ts) == AfterTicks(c1, pace, ts[1..]);
      assert pings + PingsIn(ts, w.ping) == pings1 + PingsIn(ts[1..], w.ping);
      g := TicksKeepPhase(c1, pace, w, reset, pings1, g1, ts[1..]);
    }
  }

  /** Removed at `lost`, within one launch period of its time. From then on its reconnect is pending, or it has fired
      between 5000 and one launch period more after the removal. */
  ghost predicate RemovedAt(c: Clocked, pace: Pace, w: Watch, ts: seq<Tick>, lost: int)
    requires Ticks(c, pace, ts)
  {
    var end := AfterTicks(c, pace, ts);
    && c.now + 4000 <= lost <= c.now + 4000 + pace.period && lost <= end.now
    && ((exists i: nat :: Lost(end.s, w.r, lost, i)) || Reconnects(c, pace, ts, w.r, lost + 5000, lost + 5000 + pace.period))
    && (end.now < lost + 5000 ==> exists i: nat :: Lost(end.s, w.r, lost, i))
    && (end.now > lost + 5000 + pace.period ==> Reconnects(c, pace, ts, w.r, lost + 5000, lost + 5000 + pace.period))
  }

  /** A peer that is silent since its slot was reset keeps the slot, its only one, for 4000, and the slot is
      gone one launch period later, however far apart launches are; 5000 after that, and at most one launch period
      late, it is reconnected to. It is sent at most three pings, and exactly three if the last cannot be so late
      that comm-lost overtakes it. */
  lemma SilentPeerIsDetected(c: Clocked, pace: Pace, w: Watch, ts: seq<Tick>)
    requires UdpInv(c.s) && Rhythm(c.s, c.lastLaunch, w, c.now, pace) && c.lastLaunch <= c.now
    requires c.s.tasks[w.ping].left == 3
    requires Ticks(c, pace, ts) && Silent(ts, w.r)
    ensures var end := AfterTicks(c, pace, ts);
            && (end.now < c.now + 4000 ==> Tracks(end.s, w))
            && (end.now > c.now + 4000 + pace.period ==> exists lost :: RemovedAt(c, pace, w, ts, lost))
            && PingsIn(ts, w.ping) <= 3
            && ((exists lost :: RemovedAt(c, pace, w, ts, lost)) || Tracks(end.s, w))
            && (pace.Late() < 1000 && (exists lost :: RemovedAt(c, pace, w, ts, lost)) ==> PingsIn(ts, w.ping) == 3)
  {
    assert SlotOk(c.s, w.j);
    var g := TicksKeepPhase(c, pace, w, c.now, 0, Watching, ts);
    if ts != [] {
      TicksKeepPace(c, pace, ts);
    }
    match g {
      case Watching =>
      case Gone(lost, i) => assert RemovedAt(c, pace, w, ts, lost);
      case Back(lost) => assert RemovedAt(c, pace, w, ts, lost);
    }
  }

  /** A remote that gets two slots at once, says hello before 4000, and the firing of the second comm-lost. */
  lemma DuplicateStates(fd: int, r: Remote, rearm: Rearm)
    requires r.port != 0
    ensures var s2 := ConnectUdp(Initial(UDP, fd), [r, r], 0);
            HandleUdp(s2, r, "hello", 3999).Done?
            && var s3 := HandleUdp(s2, r, "hello", 3999).state;
               && Guard(s3, Fire(3), 4000) && Step(s3, Fire(3), rearm, 4000).Done?
               && var s5 := Step(s3, Fire(3), rearm, 4000).state;
                  && |s5.peers| == 2 && !UdpLive(s5.peers[0]) && s5.peers[1].remote == r && !Armed(s5, 1)
  {
    var s1 := CommUpUdp(Initial(UDP, fd), r, 0);
    var s2 := CommUpUdp(s1, r, 0);
    assert [r, r][1..] == [r] && [r][1..] == [];
    assert s2 == ConnectUdp(ConnectUdp(s1, [r], 0), [], 0) == ConnectUdp(Initial(UDP, fd), [r, r], 0);
    InitialIsOk(UDP, fd);
    ConnectKeepsInv(Initial(UDP, fd), [r, r], 0);
    assert s2.peers[0].remote == s2.peers[1].remote == r && s2.peers[1].commLost == Some(3);
    assert s2.tasks[3] == NewTask(CommLost, r, 0);
    MessageResetsTheFirst(s2, 1, 3, "hello", 3999);
    StepKeepsInv(s2, Receive(r, "hello"), rearm, 3999);
    var s3 := HandleUdp(s2, r, "hello", 3999).state;
    assert s3.peers[0].remote == s3.peers[1].remote;
    CommLostGivesUpItsOwnSlot(s3, 1, 3, rearm, 4000);
  }

  lemma OneEventFirst(s: State, e: Timed, rest: seq<Timed>, rearm: Rearm)
    requires Guard(s, e.event, e.now) && Step(s, e.event, rearm, e.now).Done?
    requires Runs(Step(s, e.event, rearm, e.now).state, rest, rearm)
    ensures Runs(s, [e] + rest, rearm)
    ensures After(s, [e] + rest, rearm) == After(Step(s, e.event, rearm, e.now).state, rest, rearm)
  {
    assert ([e] + rest)[1..] == rest;
  }

  lemma RunOfThree(s: State, e1: Timed, e2: Timed, e3: Timed, rearm: Rearm)
    requires Guard(s, e1.event, e1.now) && Step(s, e1.event, rearm, e1.now).Done?
    requires var s1 := Step(s, e1.event, rearm, e1.now).state;
             Guard(s1, e2.event, e2.now) && Step(s1, e2.event, rearm, e2.now).Done?
             && var s2 := Step(s1, e2.event, rearm, e2.now).state;
                Guard(s2, e3.event, e3.now) && Step(s2, e3.event, rearm, e3.now).Done?
    ensures Runs(s, [e1, e2, e3], rearm)
    ensures After(s, [e1, e2, e3], rearm)
            == Step(Step(Step(s, e1.event, rearm, e1.now).state, e2.event, rearm, e2.now).state, e3.event, rearm, e3.now).state
  {
    var s1 := Step(s, e1.event, rearm, e1.now).state;
    var s2 := Step(s1, e2.event, rearm, e2.now).state;
    OneEventFirst(s2, e3, [], rearm);
    OneEventFirst(s1, e2, [e3], rearm);
    OneEventFirst(s, e1, [e2, e3], rearm);
    assert [e3] + [] == [e3] && [e2] + [e3] == [e2, e3] && [e1] + [e2, e3] == [e1, e2, e3];
  }

  /** Uniqueness is needed: with two slots for one remote, the second slot's comm-lost removes the first slot one
      millisecond after the remote was heard. The second slot stays, without a comm-lost that could fire. */
  lemma DuplicateIsLostWhileTalking(fd: int, r: Remote, rearm: Rearm)
    requires r.port != 0
    ensures var evs := [At(0, Start([r, r])), At(3999, Receive(r, "hello")), At(4000, Fire(3))];
            && Runs(Initial(UDP, fd), evs, rearm)
            && var s := After(Initial(UDP, fd), evs, rearm);
               |s.peers| == 2 && !UdpLive(s.peers[0]) && s.peers[1].remote == r && !Armed(s, 1)
  {
    DuplicateStates(fd, r, rearm);
    RunOfThree(Initial(UDP, fd), At(0, Start([r, r])), At(3999, Receive(r, "hello")), At(4000, Fire(3)), rearm);
  }

  /** No two slots are for r. */
  predicate AtMostOne(s: State, r: Remote) {
    forall j, k :: 0 <= j < k < |s.peers| && s.peers[j].remote == r ==> s.peers[k].remote != r
  }

  lemma {:induction false} ConnectFillsInOrder(s: State, remotes: seq<Remote>, now: int)
    requires |s.peers| <= PEERS_MAX_COUNT
    ensures var peers := ConnectUdp(s, remotes, now).peers;
            && |peers| == |s.peers| + |Admitted(s, remotes)| && peers[..|s.peers|] == s.peers
            && forall i :: |s.peers| <= i < |peers| ==> peers[i].remote == Admitted(s, remotes)[i - |s.peers|]
    decreases |remotes|
  {
    if remotes != [] {
      var s1 := CommUpUdp(s, remotes[0], now);
      ConnectFillsInOrder(s1, remotes[1..], now);
      ConnectKeepsSlots(s, remotes, now);
      assert Admitted(s, remotes) == Admitted(s, [remotes[0]]) + Admitted(s1, remotes[1..]);
      assert !Full(s) ==> ConnectUdp(s, remotes, now).peers[..|s1.peers|][|s.peers|].remote == remotes[0];
    }
  }

  lemma ConnectDuplicates(s: State, remotes: seq<Remote>, now: int, r: Remote)
    requires |s.peers| <= PEERS_MAX_COUNT && AtMostOne(s, r) && FindRemote(s, r).Some?
    ensures AtMostOne(ConnectUdp(s, remotes, now), r) <==> r !in Admitted(s, remotes)
  {
    var peers, j := ConnectUdp(s, remotes, now).peers, FindRemote(s, r).value;
    ConnectFillsInOrder(s, remotes, now);
    assert forall k :: 0 <= k < |s.peers| ==> peers[..|s.peers|][k] == peers[k];
    if i :| 0 <= i < |Admitted(s, remotes)| && Admitted(s, remotes)[i] == r {
      assert peers[j].remote == r && peers[|s.peers| + i].remote == r;
    }
  }

  /** While a remote has its slot, an event gives it a second one exactly when it connects to the remote
      and there is room: a start that names it, or the firing of a reconnect towards it. */
  lemma SecondSlotExactlyOnConnect(s: State, e: Event, rearm: Rearm, now: int, r: Remote)
    requires UdpInv(s) && Guard(s, e, now) && Step(s, e, rearm, now).Done? && r.port != 0
    requires AtMostOne(s, r) && FindRemote(s, r).Some?
    ensures AtMostOne(Step(s, e, rearm, now).state, r) <==> r !in FlowOf(s, e).liveIn
  {
    match e {
      case Start(remotes) => ConnectDuplicates(s, remotes, now, r);
      case Say(msg) =>
      case Receive(from, msg) =>
        if msg != QUIT_MSG && FindRemote(s, from).None? {
          ConnectDuplicates(s, [from], now, r);
          assert [from][1..] == [];
        }
      case Fire(i) =>
        var s1 := s.(tasks := s.tasks[i := Fired(s.tasks[i], rearm, now)]);
        assert FindRemote(s1, r).Some? by {
          assert s1.peers[FindRemote(s, r).value].remote == r;
        }
        if s.tasks[i].kind == Reestablish {
          ConnectDuplicates(s1, [s.tasks[i].remote], now, r);
        }
    }
  }

  lemma {:induction false} TicksKeepPace(c: Clocked, pace: Pace, ts: seq<Tick>)
    requires Ticks(c, pace, ts) && ts != []
    ensures AfterTicks(c, pace, ts).now <= AfterTicks(c, pace, ts).lastLaunch + pace.period
    decreases |ts|
  {
    if |ts| > 1 {
      TicksKeepPace(TickStep(c, pace, ts[0]), pace, ts[1..]);
    }
  }
}
