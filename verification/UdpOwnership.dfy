/** Who owns the keep-alive tasks, in every state a UDP socket can reach, duplicate remotes included. */
module UdpOwnership {
  import opened Sockets
  import opened SocketUdp

  // ---------------------------------------------------------------- the invariant

  predicate IsTask(t: Task, kind: TaskKind, remote: Remote) {
    t.kind == kind && t.remote == remote && !t.cancelled
  }

  function HandleFor(p: Peer, kind: TaskKind): Option<nat> {
    match kind
    case Ping => p.ping
    case CommLost => p.commLost
    case Reestablish => None
  }

  /** A live slot has both its tasks, for its own remote; a dead one has neither. */
  predicate SlotOk(s: State, j: nat)
    requires j < |s.peers|
  {
    var p := s.peers[j];
    && p.fd == 0
    && if UdpLive(p) then
         && p.ping.Some? && p.ping.value < |s.tasks| && IsTask(s.tasks[p.ping.value], Ping, p.remote)
         && p.commLost.Some? && p.commLost.value < |s.tasks| && IsTask(s.tasks[p.commLost.value], CommLost, p.remote)
       else
         p.ping.None? && p.commLost.None?
  }

  /** Slot j owns task i. */
  predicate Owns(s: State, j: nat, i: nat)
    requires j < |s.peers| && i < |s.tasks|
  {
    UdpLive(s.peers[j]) && HandleFor(s.peers[j], s.tasks[i].kind) == Some(i)
  }

  ghost predicate TaskOk(s: State, i: nat)
    requires i < |s.tasks|
  {
    var t := s.tasks[i];
    && t.delay == DelayOf(t.kind) && t.repetitions == RepetitionsOf(t.kind) && t.left <= t.repetitions
    && t.remote.port != 0
    && (t.kind == Reestablish ==> !t.cancelled)
    && (t.kind != Reestablish && !t.cancelled ==> exists j :: 0 <= j < |s.peers| && Owns(s, j, i))
  }

  ghost predicate UdpInv(s: State) {
    && IsUdp(s.protocol)
    && |s.peers| <= PEERS_MAX_COUNT
    && s.open == (if s.fd == 0 then {} else {s.fd})
    && (forall j :: 0 <= j < |s.peers| ==> SlotOk(s, j))
    && (forall i :: 0 <= i < |s.tasks| ==> TaskOk(s, i))
    && (forall j, k :: 0 <= j < k < |s.peers| && s.peers[j].ping.Some? ==> s.peers[j].ping != s.peers[k].ping)
    && (forall j, k :: 0 <= j < k < |s.peers| && s.peers[j].commLost.Some? ==> s.peers[j].commLost != s.peers[k].commLost)
  }

  lemma InitialIsOk(protocol: Protocol, fd: int)
    requires IsUdp(protocol)
    ensures UdpInv(Initial(protocol, fd))
  {
  }

  /** All traffic goes through the one descriptor, so there is only that to close. */
  lemma OneDescriptor(s: State)
    requires UdpInv(s)
    ensures FdsOwned(s) && LiveFds(s.peers) == {}
  {
    forall j | 0 <= j < |s.peers|
      ensures s.peers[j].fd == 0
    {
      assert SlotOk(s, j);
    }
  }

  // ---------------------------------------------------------------- preservation, operation by operation

  /** The invariant does not look at the due times or at what was sent. */
  lemma CountdownIsFree(s: State, s': State)
    requires UdpInv(s) && s' == s.(tasks := s'.tasks, sent := s'.sent) && |s'.tasks| == |s.tasks|
    requires forall i :: 0 <= i < |s.tasks| ==>
               s'.tasks[i] == s.tasks[i].(left := s'.tasks[i].left, due := s'.tasks[i].due)
               && (s'.tasks[i].left <= s.tasks[i].left || s'.tasks[i].left == s.tasks[i].repetitions)
    ensures UdpInv(s')
  {
    forall i | 0 <= i < |s'.tasks|
      ensures TaskOk(s', i)
    {
      assert TaskOk(s, i);
      if s.tasks[i].kind != Reestablish && !s.tasks[i].cancelled {
        var j :| 0 <= j < |s.peers| && Owns(s, j, i);
        assert Owns(s', j, i);
      }
    }
    forall j | 0 <= j < |s'.peers|
      ensures SlotOk(s', j)
    {
      assert SlotOk(s, j);
    }
  }

  lemma CommUpKeepsInv(s: State, remote: Remote, now: int)
    requires UdpInv(s) && remote.port != 0
    ensures UdpInv(CommUpUdp(s, remote, now))
  {
    var s' := CommUpUdp(s, remote, now);
    if !Full(s) {
      var n := |s.peers|;
      assert forall j :: 0 <= j < n ==> s'.peers[j] == s.peers[j] && SlotOk(s, j);
      forall i | 0 <= i < |s'.tasks|
        ensures TaskOk(s', i)
      {
        if i >= |s.tasks| {
          assert Owns(s', n, i);
        } else {
          assert TaskOk(s, i);
          if s.tasks[i].kind != Reestablish && !s.tasks[i].cancelled {
            var j :| 0 <= j < n && Owns(s, j, i);
            assert Owns(s', j, i);
          }
        }
      }
    }
  }

  lemma {:induction false} ConnectKeepsInv(s: State, remotes: seq<Remote>, now: int)
    requires UdpInv(s) && forall r :: r in remotes ==> r.port != 0
    ensures UdpInv(ConnectUdp(s, remotes, now))
    decreases |remotes|
  {
    if remotes != [] {
      CommUpKeepsInv(s, remotes[0], now);
      ConnectKeepsInv(CommUpUdp(s, remotes[0], now), remotes[1..], now);
    }
  }

  lemma ReconnectTaskKeepsInv(s: State, remote: Remote, now: int)
    requires UdpInv(s) && remote.port != 0
    ensures UdpInv(AddTask(s, Reestablish, remote, now))
  {
    var s' := AddTask(s, Reestablish, remote, now);
    forall i | 0 <= i < |s'.tasks|
      ensures TaskOk(s', i)
    {
      if i < |s.tasks| {
        assert TaskOk(s, i);
        if s.tasks[i].kind != Reestablish && !s.tasks[i].cancelled {
          var j :| 0 <= j < |s.peers| && Owns(s, j, i);
          assert Owns(s', j, i);
        }
      }
    }
    assert forall j :: 0 <= j < |s.peers| ==> SlotOk(s, j) && SlotOk(s', j);
  }

  lemma RemovalKeepsInv(s: State, k: nat)
    requires UdpInv(s) && k < |s.peers|
    ensures UdpInv(RemoveAt(s, k))
  {
    var s', p := RemoveAt(s, k), s.peers[k];
    assert SlotOk(s, k);
    assert forall j :: 0 <= j < |s.peers| && j != k ==> s'.peers[j] == s.peers[j];
    assert forall i :: 0 <= i < |s.tasks| && Some(i) != p.ping && Some(i) != p.commLost ==> s'.tasks[i] == s.tasks[i];
    forall j | 0 <= j < |s'.peers|
      ensures SlotOk(s', j)
    {
      assert SlotOk(s, j);
    }
    forall i | 0 <= i < |s'.tasks|
      ensures TaskOk(s', i)
    {
      assert TaskOk(s, i);
      if s'.tasks[i].kind != Reestablish && !s'.tasks[i].cancelled {
        var j :| 0 <= j < |s.peers| && Owns(s, j, i);
        assert Owns(s', j, i);
      }
    }
  }

  lemma StepKeepsInv(s: State, e: Event, rearm: Rearm, now: int)
    requires UdpInv(s) && Guard(s, e, now) && Step(s, e, rearm, now).Done?
    ensures UdpInv(Step(s, e, rearm, now).state)
  {
    match e {
      case Start(remotes) => ConnectKeepsInv(s, remotes, now);
      case Say(msg) => CountdownIsFree(s, SendAll(s, msg));
      case Receive(from, msg) => ReceiveKeepsInv(s, from, msg, now);
      case Fire(i) =>
        var t := s.tasks[i];
        assert TaskOk(s, i);
        var s1 := s.(tasks := s.tasks[i := Fired(t, rearm, now)]);
        CountdownIsFree(s, s1);
        match t.kind {
          case Ping => CountdownIsFree(s1, SendTo(s1, t.remote, KEEP_ALIVE_MSG));
          case CommLost =>
            ReconnectTaskKeepsInv(s1, t.remote, now);
            var s2 := AddTask(s1, Reestablish, t.remote, now);
            RemovalKeepsInv(s2, FindRemote(s1, t.remote).value);
          case Reestablish => ConnectKeepsInv(s1, [t.remote], now);
        }
    }
  }

  lemma ReceiveKeepsInv(s: State, from: Remote, msg: string, now: int)
    requires UdpInv(s) && from.port != 0 && HandleUdp(s, from, msg, now).Done?
    ensures UdpInv(HandleUdp(s, from, msg, now).state)
  {
    var found := FindRemote(s, from);
    if msg == QUIT_MSG {
      RemovalKeepsInv(s, found.value);
    } else {
      var s1 := if msg == KEEP_ALIVE_MSG then SendTo(s, from, KEEP_ALIVE_ACK_MSG) else s;
      CountdownIsFree(s, s1);
      if found.Some? {
        assert SlotOk(s1, found.value);
        var p := s1.peers[found.value];
        assert TaskOk(s1, p.ping.value) && TaskOk(s1, p.commLost.value);
        CountdownIsFree(s1, HandleUdp(s, from, msg, now).state);
      } else {
        CommUpKeepsInv(s1, from, now);
      }
    }
  }

  lemma {:induction false} RunsKeepInv(s: State, evs: seq<Timed>, rearm: Rearm)
    requires UdpInv(s) && Runs(s, evs, rearm)
    ensures UdpInv(After(s, evs, rearm))
    decreases |evs|
  {
    if evs != [] {
      var e := evs[0];
      StepKeepsInv(s, e.event, rearm, e.now);
      RunsKeepInv(Step(s, e.event, rearm, e.now).state, evs[1..], rearm);
    }
  }

  // ---------------------------------------------------------------- what it gives

  /** The live slots for the task's own remote that hold the task. */
  function Owners(s: State, i: nat): set<nat>
    requires i < |s.tasks|
  {
    set j: nat | j < |s.peers| && Owns(s, j, i) && s.peers[j].remote == s.tasks[i].remote
  }

  /** In every reachable state each enabled ping or comm-lost task belongs to exactly one live slot,
      whose remote is the task's. */
  lemma TimerOwnership(protocol: Protocol, fd: int, evs: seq<Timed>, rearm: Rearm, i: nat)
    requires IsUdp(protocol) && Runs(Initial(protocol, fd), evs, rearm)
    requires i < |After(Initial(protocol, fd), evs, rearm).tasks|
    requires After(Initial(protocol, fd), evs, rearm).tasks[i].Enabled()
    requires After(Initial(protocol, fd), evs, rearm).tasks[i].kind != Reestablish
    ensures |Owners(After(Initial(protocol, fd), evs, rearm), i)| == 1
  {
    var s := After(Initial(protocol, fd), evs, rearm);
    RunsKeepInv(Initial(protocol, fd), evs, rearm);
    assert TaskOk(s, i);
    var j: nat :| j < |s.peers| && Owns(s, j, i);
    assert SlotOk(s, j);
    forall k | k in Owners(s, i)
      ensures k == j
    {
      assert SlotOk(s, k);
    }
    assert Owners(s, i) == {j};
  }

  /** Firing never crashes: comm-lost finds a peer to remove, and a ping goes to the remote of a live slot. */
  lemma FiringIsSafe(s: State, i: nat, rearm: Rearm, now: int)
    requires UdpInv(s) && Guard(s, Fire(i), now)
    ensures Step(s, Fire(i), rearm, now).Done?
    ensures s.tasks[i].kind == Ping ==>
              && Step(s, Fire(i), rearm, now).state.sent == s.sent + [Sent(RemoteKey(s.tasks[i].remote), "ka")]
              && exists j :: 0 <= j < |s.peers| && UdpLive(s.peers[j]) && s.peers[j].remote == s.tasks[i].remote
  {
    assert TaskOk(s, i);
    if s.tasks[i].kind != Reestablish {
      var j :| 0 <= j < |s.peers| && Owns(s, j, i);
      assert SlotOk(s, j);
      assert s.peers[j].remote == s.tasks[i].remote;
    }
  }

  /** In a reachable state an event crashes exactly when it is a goodbye from a sender without a slot;
      no live slot lacks a task to reset. */
  lemma CrashesExactlyOnStrangersGoodbye(s: State, e: Event, rearm: Rearm, now: int)
    requires UdpInv(s) && Guard(s, e, now)
    ensures !Step(s, e, rearm, now).NullTask?
    ensures Step(s, e, rearm, now).NullPeer? <==>
              e.Receive? && e.msg == "q" && forall j :: 0 <= j < |s.peers| ==> s.peers[j].remote != e.from
  {
    match e {
      case Start(remotes) =>
      case Say(msg) =>
      case Fire(i) => FiringIsSafe(s, i, rearm, now);
      case Receive(from, msg) =>
        var found := FindRemote(s, from);
        if found.Some? {
          assert SlotOk(s, found.value);
        }
    }
  }

  /** The port of the sender matters: a message from port 0 resets null tasks exactly when the
      first slot with its address and port 0 is a removed one. */
  lemma PortZeroResetsNothing(s: State, from: Remote, msg: string, now: int)
    requires UdpInv(s) && msg != QUIT_MSG
    ensures HandleUdp(s, from, msg, now).NullTask? <==>
              from.port == 0 && exists j :: 0 <= j < |s.peers| && s.peers[j].remote == from
  {
    var found := FindRemote(s, from);
    if found.Some? {
      assert SlotOk(s, found.value);
    }
  }

  /** Connecting to port 0 fills a slot that looks removed but has tasks: it breaks ownership if and only if there
      is room for it. */
  lemma PortZeroBreaksOwnership(s: State, remote: Remote, now: int)
    requires UdpInv(s)
    ensures UdpInv(CommUpUdp(s, remote, now)) <==> Full(s) || remote.port != 0
  {
    if !Full(s) {
      if remote.port == 0 {
        assert !SlotOk(CommUpUdp(s, remote, now), |s.peers|);
      } else {
        CommUpKeepsInv(s, remote, now);
      }
    }
  }
}
