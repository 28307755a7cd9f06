/** Which slots notice that their peer has fallen silent, duplicate remotes included. */
module UdpDetection {
  import opened Sockets
  import opened SocketUdp
  import opened UdpOwnership
  import opened UdpAccounts

  // ---------------------------------------------------------------- whose slot comm-lost gives up

  /** An earlier slot is for the same remote. */
  predicate Shadowed(s: State, j: nat)
    requires j < |s.peers|
  {
    exists k :: 0 <= k < j && s.peers[k].remote == s.peers[j].remote
  }

  /** A live slot notices when its peer falls silent: its comm-lost is going to fire. */
  predicate Armed(s: State, j: nat)
    requires j < |s.peers|
  {
    && UdpLive(s.peers[j])
    && s.peers[j].commLost.Some? && s.peers[j].commLost.value < |s.tasks|
    && s.tasks[s.peers[j].commLost.value].Enabled()
  }

  /** A firing comm-lost gives up its own slot if and only if no earlier slot is for the same remote. Otherwise
      that earlier slot goes, and its own stays live with a comm-lost that is used up. Either way a reconnect is owed. */
  lemma CommLostGivesUpItsOwnSlot(s: State, j: nat, i: nat, rearm: Rearm, now: int)
    requires UdpInv(s) && Guard(s, Fire(i), now) && s.tasks[i].kind == CommLost && j < |s.peers| && Owns(s, j, i)
    ensures Step(s, Fire(i), rearm, now).Done?
    ensures var s' := Step(s, Fire(i), rearm, now).state;
            && j < |s'.peers| && (!UdpLive(s'.peers[j]) <==> !Shadowed(s, j))
            && |s'.tasks| == |s.tasks| + 1 && IsReconnect(s'.tasks[|s.tasks|], s.tasks[i].remote, now)
            && (Shadowed(s, j) ==>
                  && s'.peers[j] == s.peers[j] && !s'.tasks[i].Enabled()
                  && exists k :: 0 <= k < j && s.peers[k].remote == s.peers[j].remote && !UdpLive(s'.peers[k]))
  {
    FiringIsSafe(s, i, rearm, now);
    assert SlotOk(s, j) && TaskOk(s, i) && SlotOk(s, FindRemote(s, s.tasks[i].remote).value);
  }

  // ---------------------------------------------------------------- who stays armed

  predicate AllArmed(s: State) {
    forall j :: 0 <= j < |s.peers| && UdpLive(s.peers[j]) ==> Armed(s, j)
  }

  /** The event is the firing of the slot's own comm-lost while an earlier slot is for the same remote. */
  predicate Disarms(s: State, e: Event, j: nat)
    requires j < |s.peers|
  {
    UdpLive(s.peers[j]) && e.Fire? && s.peers[j].commLost == Some(e.i) && Shadowed(s, j)
  }

  lemma {:induction false} ConnectArms(s: State, remotes: seq<Remote>, now: int)
    requires AllArmed(s)
    ensures AllArmed(ConnectUdp(s, remotes, now))
    decreases |remotes|
  {
    if remotes != [] {
      ConnectArms(CommUpUdp(s, remotes[0], now), remotes[1..], now);
    }
  }

  lemma RemovalLeavesArmed(s: State, h: nat, k: nat)
    requires UdpInv(s) && h < |s.peers| && k < |s.peers| && h != k && Armed(s, k)
    ensures Armed(RemoveAt(s, h), k)
  {
    assert SlotOk(s, h) && SlotOk(s, k);
  }

  lemma MessageArms(s: State, from: Remote, msg: string, now: int)
    requires UdpInv(s) && AllArmed(s) && HandleUdp(s, from, msg, now).Done?
    ensures AllArmed(HandleUdp(s, from, msg, now).state)
  {
    var s', found := HandleUdp(s, from, msg, now).state, FindRemote(s, from);
    if msg == QUIT_MSG {
      forall j | 0 <= j < |s.peers| && UdpLive(s'.peers[j])
        ensures Armed(s', j)
      {
        RemovalLeavesArmed(s, found.value, j);
      }
    } else if found.Some? {
      assert SlotOk(s, found.value);
      var p := s.peers[found.value];
      assert TaskOk(s, p.ping.value) && TaskOk(s, p.commLost.value);
    }
  }

  /** An event leaves every live slot armed if and only if it does not disarm one of them. */
  lemma ArmedUnlessDisarmed(s: State, e: Event, rearm: Rearm, now: int)
    requires UdpInv(s) && AllArmed(s) && Guard(s, e, now) && Step(s, e, rearm, now).Done?
    ensures AllArmed(Step(s, e, rearm, now).state) <==> forall j :: 0 <= j < |s.peers| ==> !Disarms(s, e, j)
  {
    match e {
      case Start(remotes) => ConnectArms(s, remotes, now);
      case Say(msg) =>
      case Receive(from, msg) => MessageArms(s, from, msg, now);
      case Fire(i) => FiringArms(s, i, rearm, now);
    }
  }

  lemma FiringArms(s: State, i: nat, rearm: Rearm, now: int)
    requires UdpInv(s) && AllArmed(s) && Guard(s, Fire(i), now) && Step(s, Fire(i), rearm, now).Done?
    ensures AllArmed(Step(s, Fire(i), rearm, now).state) <==> forall j :: 0 <= j < |s.peers| ==> !Disarms(s, Fire(i), j)
  {
    match s.tasks[i].kind {
      case Ping => FiringLeavesArmed(s, i, rearm, now);
      case Reestablish =>
        FiringLeavesArmed(s, i, rearm, now);
        ConnectArms(s.(tasks := s.tasks[i := Fired(s.tasks[i], rearm, now)]), [s.tasks[i].remote], now);
      case CommLost =>
        assert TaskOk(s, i);
        var j: nat :| j < |s.peers| && Owns(s, j, i);
        CommLostGivesUpItsOwnSlot(s, j, i, rearm, now);
        forall k: nat | k < |s.peers| && k != j
          ensures !Disarms(s, Fire(i), k) && (UdpLive(Step(s, Fire(i), rearm, now).state.peers[k]) ==> Armed(Step(s, Fire(i), rearm, now).state, k))
        {
          OtherStaysArmed(s, j, i, rearm, now, k);
        }
        assert Disarms(s, Fire(i), j) <==> Shadowed(s, j);
    }
  }

  /** A ping or reconnect is no slot's comm-lost. */
  lemma FiringLeavesArmed(s: State, i: nat, rearm: Rearm, now: int)
    requires UdpInv(s) && AllArmed(s) && i < |s.tasks| && s.tasks[i].kind != CommLost
    ensures AllArmed(s.(tasks := s.tasks[i := Fired(s.tasks[i], rearm, now)]))
    ensures forall j :: 0 <= j < |s.peers| ==> !Disarms(s, Fire(i), j)
  {
    var s1 := s.(tasks := s.tasks[i := Fired(s.tasks[i], rearm, now)]);
    forall j | 0 <= j < |s.peers| && UdpLive(s.peers[j])
      ensures Armed(s1, j) && s.peers[j].commLost != Some(i)
    {
      assert SlotOk(s, j) && Armed(s, j);
    }
  }

  /** The comm-lost of slot j is no other slot's. */
  lemma OtherStaysArmed(s: State, j: nat, i: nat, rearm: Rearm, now: int, k: nat)
    requires UdpInv(s) && AllArmed(s) && Guard(s, Fire(i), now) && s.tasks[i].kind == CommLost
    requires j < |s.peers| && Owns(s, j, i) && k < |s.peers| && k != j && Step(s, Fire(i), rearm, now).Done?
    ensures var s' := Step(s, Fire(i), rearm, now).state;
            |s'.peers| == |s.peers| && !Disarms(s, Fire(i), k) && (UdpLive(s'.peers[k]) ==> Armed(s', k))
  {
    var r := s.tasks[i].remote;
    var s1 := s.(tasks := s.tasks[i := Fired(s.tasks[i], rearm, now)]);
    assert SlotOk(s, k) && TaskOk(s, i);
    CountdownIsFree(s, s1);
    ReconnectTaskKeepsInv(s1, r, now);
    var s2, h := AddTask(s1, Reestablish, r, now), FindRemote(s, r).value;
    assert Step(s, Fire(i), rearm, now).state == RemoveAt(s2, h);
    if k != h && UdpLive(s.peers[k]) {
      assert Armed(s, k) && s.peers[k].commLost != Some(i);
      RemovalLeavesArmed(s2, h, k);
    }
  }

  // ---------------------------------------------------------------- runs

  /** No event of the run disarms a slot. */
  predicate NeverDisarmed(s: State, evs: seq<Timed>, rearm: Rearm)
    requires Runs(s, evs, rearm)
    decreases |evs|
  {
    evs != [] ==>
      && (forall j :: 0 <= j < |s.peers| ==> !Disarms(s, evs[0].event, j))
      && NeverDisarmed(Step(s, evs[0].event, rearm, evs[0].now).state, evs[1..], rearm)
  }

  /** In every state of the run every live slot is armed. */
  predicate ArmedThroughout(s: State, evs: seq<Timed>, rearm: Rearm)
    requires Runs(s, evs, rearm)
    decreases |evs|
  {
    AllArmed(s) && (evs != [] ==> ArmedThroughout(Step(s, evs[0].event, rearm, evs[0].now).state, evs[1..], rearm))
  }

  lemma {:induction false} RunsStayArmed(s: State, evs: seq<Timed>, rearm: Rearm)
    requires UdpInv(s) && AllArmed(s) && Runs(s, evs, rearm)
    ensures ArmedThroughout(s, evs, rearm) <==> NeverDisarmed(s, evs, rearm)
    decreases |evs|
  {
    if evs != [] {
      var e := evs[0];
      var s' := Step(s, e.event, rearm, e.now).state;
      ArmedUnlessDisarmed(s, e.event, rearm, e.now);
      StepKeepsInv(s, e.event, rearm, e.now);
      if AllArmed(s') {
        RunsStayArmed(s', evs[1..], rearm);
      }
    }
  }

  /** The converse of timer ownership: in every run each live slot has, in every state, a comm-lost that is going
      to fire, if and only if no comm-lost fires while an earlier slot is for its remote. */
  lemma LiveSlotsStayArmed(protocol: Protocol, fd: int, evs: seq<Timed>, rearm: Rearm)
    requires IsUdp(protocol) && Runs(Initial(protocol, fd), evs, rearm)
    ensures ArmedThroughout(Initial(protocol, fd), evs, rearm) <==> NeverDisarmed(Initial(protocol, fd), evs, rearm)
  {
    InitialIsOk(protocol, fd);
    RunsStayArmed(Initial(protocol, fd), evs, rearm);
  }

  /** A message resets the tasks of the first slot for its sender and of no other: a slot behind it is reset only
      once it has become the first, and is then armed again. */
  lemma MessageResetsTheFirst(s: State, j: nat, i: nat, msg: string, now: int)
    requires UdpInv(s) && j < |s.peers| && i < |s.tasks| && Owns(s, j, i) && msg != QUIT_MSG
    ensures HandleUdp(s, s.peers[j].remote, msg, now).Done?
    ensures var s' := HandleUdp(s, s.peers[j].remote, msg, now).state;
            && |s'.tasks| == |s.tasks| && s'.peers == s.peers
            && s'.tasks[i] == (if Shadowed(s, j) then s.tasks[i] else Reset(s.tasks[i], now))
            && (!Shadowed(s, j) ==> s'.tasks[i].Enabled())
  {
    var h := FindRemote(s, s.peers[j].remote).value;
    assert SlotOk(s, j) && SlotOk(s, h) && TaskOk(s, i);
    assert !Shadowed(s, j) ==> h == j;
  }
}
