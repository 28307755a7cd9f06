/** Runs of a TCP or DCCP socket: the snapshot that the receive loop walks, descriptor
    ownership, and where every connection goes. */
module TcpRuns {
  import opened Sockets
  import opened FdSets
  import opened SocketTcp
  import opened SocketCleanUp
  import opened Accounts

  // ---------------------------------------------------------------- the invariant

  ghost predicate TcpInv(s: State) {
    && (s.protocol == TCP || s.protocol == DCCP)
    && s.fd != 0 && FdsOwned(s)
    && |s.peers| <= PEERS_MAX_COUNT
    && forall i :: 0 <= i < |s.tasks| ==> s.tasks[i].kind == Reestablish && s.tasks[i].left <= 1 && !s.tasks[i].cancelled
  }

  lemma InitialIsOk(protocol: Protocol, fd: int)
    requires (protocol == TCP || protocol == DCCP) && fd != 0
    ensures TcpInv(Initial(protocol, fd))
  {
  }

  /** What may be ready is the main descriptor and what the slots hold. */
  lemma WatchedExactly(s: State, fd: int)
    ensures fd in Watched(s) <==> fd == s.fd || exists j :: 0 <= j < |s.peers| && s.peers[j].fd == fd != 0
  {
  }

  lemma WatchedIsFound(s: State, fd: int)
    requires TcpInv(s) && fd in Watched(s) && fd != s.fd
    ensures FindFd(s, fd).Some? && fd != 0
  {
    var j :| 0 <= j < |s.peers| && s.peers[j].fd != 0 && s.peers[j].fd == fd;
  }

  lemma FillKeepsInv(s: State, fd: int, remote: Remote, outgoing: bool)
    requires TcpInv(s) && !Full(s) && fd != 0 && fd !in s.open
    ensures TcpInv(Fill(s, fd, remote, outgoing))
  {
    AppendKeepsFdsOwned(s, BLANK.(fd := fd, remote := remote, shouldReestablish := outgoing));
  }

  lemma CommLostKeepsInv(s: State, fd: int, now: int)
    requires TcpInv(s) && fd in Watched(s) && fd != s.fd
    ensures CommLostTcp(s, fd, now).Done? && TcpInv(CommLostTcp(s, fd, now).state)
  {
    WatchedIsFound(s, fd);
    var j := FindFd(s, fd).value;
    var s1 := if s.peers[j].shouldReestablish then AddTask(s, Reestablish, s.peers[j].remote, now) else s;
    assert FdsOwned(s1);
    RemovalKeepsFdsOwned(s1, j);
  }

  lemma ShutdownKeepsInv(s: State, fd: int)
    requires TcpInv(s) && fd in Watched(s) && fd != s.fd
    ensures GracefulShutdownTcp(s, fd).Done? && TcpInv(GracefulShutdownTcp(s, fd).state)
  {
    WatchedIsFound(s, fd);
    RemovalKeepsFdsOwned(s, FindFd(s, fd).value);
  }

  /** Handling a watched descriptor never crashes. */
  lemma HandleKeepsInv(s: State, fd: int, x: Stimulus, now: int)
    requires TcpInv(s) && fd in Watched(s) && Fits(s, fd, x)
    ensures Handle(s, fd, x, now).Done? && TcpInv(Handle(s, fd, x, now).state)
  {
    if fd == s.fd {
      if !Full(s) {
        FillKeepsInv(s, x.fd, x.remote, false);
      }
    } else {
      CommLostKeepsInv(s, fd, now);
      ShutdownKeepsInv(s, fd);
    }
  }

  // ---------------------------------------------------------------- what one stimulus does

  /** A lost connection owes a reconnect if it was outgoing; an orderly end owes nothing. */
  predicate IsLoss(s: State, x: Stimulus) {
    x.Failed? || (s.protocol == DCCP && x.Data? && x.text == "")
  }

  predicate IsGoodbye(s: State, x: Stimulus) {
    x.Data? && if s.protocol == DCCP then x.text == "q" else x.text == ""
  }

  predicate IsEnd(s: State, x: Stimulus) {
    IsLoss(s, x) || IsGoodbye(s, x)
  }

  /** Of a peer's descriptor: an end gives its slot up, anything else leaves the table alone. Of the main one: the
      accepted connection gets a slot behind all others, if there is room. */
  lemma HandleActs(s: State, fd: int, x: Stimulus, now: int)
    requires TcpInv(s) && fd in Watched(s) && Fits(s, fd, x)
    ensures Handle(s, fd, x, now).Done?
    ensures var s' := Handle(s, fd, x, now).state;
            && s'.fd == s.fd && s'.protocol == s.protocol
            && (if fd == s.fd && |s.peers| < 10
                then |s'.peers| == |s.peers| + 1 && Accepted(s'.peers[|s.peers|], x) else |s'.peers| == |s.peers|)
            && forall j :: 0 <= j < |s.peers| ==>
                 if s.peers[j].fd == fd && fd != s.fd && IsEnd(s, x) then s'.peers[j].fd == 0 else s'.peers[j] == s.peers[j]
  {
    HandleKeepsInv(s, fd, x, now);
    if fd != s.fd {
      WatchedIsFound(s, fd);
    }
  }

  predicate Accepted(p: Peer, x: Stimulus) {
    x.Incoming? && p.fd == x.fd && p.remote == x.remote && !p.shouldReestablish
  }

  /** The loss of an outgoing connection adds one reconnect, to its remote and due 5000 later; nothing else adds any. */
  lemma HandleOwes(s: State, fd: int, x: Stimulus, now: int)
    requires TcpInv(s) && fd in Watched(s) && Fits(s, fd, x)
    ensures Handle(s, fd, x, now).Done?
    ensures var tasks, found := Handle(s, fd, x, now).state.tasks, FindFd(s, fd);
            if fd != s.fd && found.Some? && IsLoss(s, x) && s.peers[found.value].shouldReestablish
            then |tasks| == |s.tasks| + 1 && tasks[..|s.tasks|] == s.tasks
                 && IsReconnect(tasks[|s.tasks|], s.peers[found.value].remote, now)
            else tasks == s.tasks
  {
    HandleKeepsInv(s, fd, x, now);
  }

  // ---------------------------------------------------------------- the snapshot

  /** Handling one descriptor leaves every other live slot, and the way to it, as it was. */
  lemma OthersUndisturbed(s: State, fd: int, x: Stimulus, now: int, j: nat)
    requires TcpInv(s) && fd in Watched(s) && Fits(s, fd, x)
    requires j < |s.peers| && s.peers[j].fd != 0 && s.peers[j].fd != fd
    ensures var o := Handle(s, fd, x, now);
            o.Done? && o.state.fd == s.fd && j < |o.state.peers| && o.state.peers[j] == s.peers[j]
            && FindFd(o.state, s.peers[j].fd) == Some(j)
  {
    HandleKeepsInv(s, fd, x, now);
    var s' := Handle(s, fd, x, now).state;
    assert s'.peers[j] == s.peers[j];
    assert FindFd(s', s.peers[j].fd).Some?;
  }

  lemma LaterStaysWatched(s: State, fd: int, x: Stimulus, now: int, g: int)
    requires TcpInv(s) && fd in Watched(s) && Fits(s, fd, x) && g in Watched(s) && g != fd
    ensures Handle(s, fd, x, now).Done? && g in Watched(Handle(s, fd, x, now).state)
  {
    HandleKeepsInv(s, fd, x, now);
    if g != s.fd {
      WatchedIsFound(s, g);
      var j := FindFd(s, g).value;
      OthersUndisturbed(s, fd, x, now, j);
      assert Handle(s, fd, x, now).state.peers[j].fd == g;
    }
  }

  predicate Distinct(fds: seq<int>) {
    forall i, j :: 0 <= i < j < |fds| ==> fds[i] != fds[j]
  }

  /** The state in which the k-th descriptor of the snapshot is handled. */
  function StateAt(s: State, fds: seq<int>, world: map<int, Stimulus>, now: int, k: nat): State
    requires FitsAll(s, fds, world, now) && k <= |fds|
    decreases k
  {
    if k == 0 then s
    else
      var o := Handle(s, fds[0], world[fds[0]], now);
      if o.Done? then StateAt(o.state, fds[1..], world, now, k - 1) else s
  }

  /** While the receive loop walks the snapshot, accepting and closing as it goes, each descriptor still
      to come resolves to the slot it had when select returned, and that slot is unchanged. */
  lemma {:induction false} SnapshotSlotStays(s: State, fds: seq<int>, world: map<int, Stimulus>, now: int, k: nat, j: nat)
    requires TcpInv(s) && Distinct(fds) && (forall i :: 0 <= i < |fds| ==> fds[i] in Watched(s))
    requires FitsAll(s, fds, world, now) && k < |fds| && j < |s.peers| && s.peers[j].fd == fds[k] != s.fd
    ensures var t := StateAt(s, fds, world, now, k);
            && j < |t.peers| && t.peers[j] == s.peers[j] && FindFd(s, fds[k]) == FindFd(t, fds[k]) == Some(j)
    decreases |fds|
  {
    WatchedIsFound(s, fds[k]);
    if k > 0 {
      var s' := AfterFirst(s, fds, world, now);
      OthersUndisturbed(s, fds[0], world[fds[0]], now, j);
      SnapshotSlotStays(s', fds[1..], world, now, k - 1, j);
    }
  }

  lemma AfterFirst(s: State, fds: seq<int>, world: map<int, Stimulus>, now: int) returns (s': State)
    requires TcpInv(s) && Distinct(fds) && (forall i :: 0 <= i < |fds| ==> fds[i] in Watched(s))
    requires FitsAll(s, fds, world, now) && fds != []
    ensures Handle(s, fds[0], world[fds[0]], now) == Done(s')
    ensures TcpInv(s') && Distinct(fds[1..]) && forall i :: 0 <= i < |fds[1..]| ==> fds[1..][i] in Watched(s')
  {
    HandleKeepsInv(s, fds[0], world[fds[0]], now);
    s' := Handle(s, fds[0], world[fds[0]], now).state;
    forall i | 0 <= i < |fds[1..]|
      ensures fds[1..][i] in Watched(s')
    {
      LaterStaysWatched(s, fds[0], world[fds[0]], now, fds[i + 1]);
    }
  }

  /** So the loop never follows a null peer, whatever is ready and whatever the kernel has for it. */
  lemma {:induction false} SnapshotIsSafe(s: State, fds: seq<int>, world: map<int, Stimulus>, now: int)
    requires TcpInv(s) && Distinct(fds) && (forall i :: 0 <= i < |fds| ==> fds[i] in Watched(s))
    requires FitsAll(s, fds, world, now)
    ensures HandleAll(s, fds, world, now).Done? && TcpInv(HandleAll(s, fds, world, now).state)
    decreases |fds|
  {
    if fds != [] {
      var s' := AfterFirst(s, fds, world, now);
      SnapshotIsSafe(s', fds[1..], world, now);
    }
  }

  /** What a round leaves: every peer whose descriptor was selected and had ended is given up, every other one is as it
      was, and the connection that was waiting has a slot behind all others, if there is room. */
  ghost predicate RoundActs(s: State, fds: seq<int>, world: map<int, Stimulus>, s': State) {
    && s'.fd == s.fd && s'.protocol == s.protocol
    && (forall j :: 0 <= j < |s.peers| ==>
          && j < |s'.peers|
          && if s.peers[j].fd in fds && s.peers[j].fd in world && IsEnd(s, world[s.peers[j].fd]) then s'.peers[j].fd == 0
             else s'.peers[j] == s.peers[j])
    && (if s.fd in fds && |s.peers| < 10
        then |s'.peers| == |s.peers| + 1 && s.fd in world && Accepted(s'.peers[|s.peers|], world[s.fd])
        else |s'.peers| == |s.peers|)
  }

  /** The first descriptor and then the others. */
  lemma RoundsAddUp(s: State, s': State, t: State, fds: seq<int>, world: map<int, Stimulus>)
    requires TcpInv(s) && Distinct(fds) && fds != [] && 0 !in fds && fds[0] in world
    requires s'.fd == s.fd && s'.protocol == s.protocol
    requires if fds[0] == s.fd && |s.peers| < 10
             then |s'.peers| == |s.peers| + 1 && Accepted(s'.peers[|s.peers|], world[s.fd]) && s'.peers[|s.peers|].fd !in fds
             else |s'.peers| == |s.peers|
    requires forall j :: 0 <= j < |s.peers| ==>
               if s.peers[j].fd == fds[0] && fds[0] != s.fd && IsEnd(s, world[fds[0]]) then s'.peers[j].fd == 0
               else s'.peers[j] == s.peers[j]
    requires RoundActs(s', fds[1..], world, t)
    ensures RoundActs(s, fds, world, t)
  {
    assert forall f :: f in fds <==> f == fds[0] || f in fds[1..];
    assert fds[0] !in fds[1..];
    forall j | 0 <= j < |s.peers|
      ensures j < |t.peers|
      ensures if s.peers[j].fd in fds && s.peers[j].fd in world && IsEnd(s, world[s.peers[j].fd]) then t.peers[j].fd == 0
              else t.peers[j] == s.peers[j]
    {
      assert s.peers[j].fd != 0 ==> s.peers[j].fd != s.fd;
    }
  }

  lemma NewFdIsNotSelected(s: State, fds: seq<int>, f: int)
    requires TcpInv(s) && (forall i :: 0 <= i < |fds| ==> fds[i] in Watched(s)) && f !in s.open
    ensures f !in fds && 0 !in fds
  {
    forall i | 0 <= i < |fds|
      ensures fds[i] in s.open && fds[i] != 0
    {
      if fds[i] != s.fd {
        WatchedIsFound(s, fds[i]);
      }
    }
  }

  lemma {:induction false} LoopHandlesAll(s: State, fds: seq<int>, world: map<int, Stimulus>, now: int)
    requires TcpInv(s) && Distinct(fds) && (forall i :: 0 <= i < |fds| ==> fds[i] in Watched(s))
    requires FitsAll(s, fds, world, now)
    ensures HandleAll(s, fds, world, now).Done?
    ensures RoundActs(s, fds, world, HandleAll(s, fds, world, now).state)
    decreases |fds|
  {
    if fds != [] {
      var s' := AfterFirst(s, fds, world, now);
      HandleActs(s, fds[0], world[fds[0]], now);
      LoopHandlesAll(s', fds[1..], world, now);
      NewFdIsNotSelected(s, fds, if world[fds[0]].Incoming? && fds[0] == s.fd then world[fds[0]].fd else 0);
      RoundsAddUp(s, s', HandleAll(s, fds, world, now).state, fds, world);
    }
  }

  /** One round of receiveSocket: select, then the loop. */
  lemma RoundIsSafe(s: State, ready: set<int>, hi: nat, world: map<int, Stimulus>, now: int)
    requires TcpInv(s) && ready <= Watched(s) && (forall f :: f in ready ==> 0 <= f < hi)
    requires FitsAll(s, Chosen(ready, hi), world, now)
    ensures Receive(s, ready, hi, world, now).Done? && TcpInv(Receive(s, ready, hi, world, now).state)
    ensures |Chosen(ready, hi)| <= 10
  {
    ChosenAreTheSmallest(ready, hi);
    SnapshotIsSafe(s, Chosen(ready, hi), world, now);
  }

  method HandleMessage(socket: Socket, fd: int, x: Stimulus, now: int)
    requires socket.Valid() && TcpInv(socket.View()) && fd in Watched(socket.View()) && Fits(socket.View(), fd, x)
    modifies socket, socket.peers
    ensures socket.Valid() && Handle(old(socket.View()), fd, x, now) == Done(socket.View())
  {
    HandleKeepsInv(socket.View(), fd, x, now);
    if socket.protocol == TCP {
      var crash := HandleMessageTcp(socket, fd, x, now);
    } else {
      var crash := HandleMessageDccp(socket, fd, x, now);
    }
  }

  method ReceiveSocket(socket: Socket, fdSet: FDSet, ready: set<int>, world: map<int, Stimulus>, now: int)
    requires socket.Valid() && fdSet.Valid()
    requires TcpInv(socket.View()) && ready <= Watched(socket.View())
    requires forall f :: f in Watched(socket.View()) ==> f >= 0
    requires forall hi: nat :: (forall f :: f in ready ==> f < hi) ==> FitsAll(socket.View(), Chosen(ready, hi), world, now)
    modifies socket, socket.peers, fdSet, fdSet.selectedFds
    ensures socket.Valid() && TcpInv(socket.View())
    ensures exists hi: nat :: (forall f :: f in ready ==> f < hi)
              && RoundActs(old(socket.View()), Chosen(ready, hi), world, socket.View())
              && FitsAll(old(socket.View()), Chosen(ready, hi), world, now)
              && Receive(old(socket.View()), ready, hi, world, now) == Done(socket.View())
  {
    ghost var start := socket.View();
    forall j | 0 <= j < |start.peers|
      ensures start.peers[j].fd >= 0
    {
      assert start.peers[j].fd != 0 ==> start.peers[j].fd in Watched(start);
    }
    forall f | f in ready
      ensures f == start.fd || exists j :: 0 <= j < |start.peers| && start.peers[j].fd == f != 0
    {
      WatchedExactly(start, f);
    }
    SelectFds(socket, fdSet, ready);
    ghost var hi := fdSet.fdMax;
    var fds := fdSet.selectedFds[..fdSet.selectedFdsCount];
    ChosenAreTheSmallest(ready, hi);
    SnapshotIsSafe(start, fds, world, now);
    LoopHandlesAll(start, fds, world, now);
    var i := 0;
    while i < |fds|
      invariant i <= |fds| && socket.Valid() && TcpInv(socket.View())
      invariant Distinct(fds[i..]) && forall k :: 0 <= k < |fds[i..]| ==> fds[i..][k] in Watched(socket.View())
      invariant FitsAll(socket.View(), fds[i..], world, now)
      invariant HandleAll(socket.View(), fds[i..], world, now) == HandleAll(start, fds, world, now)
    {
      assert fds[i..][1..] == fds[i + 1..] && fds[i..][0] == fds[i];
      ghost var next := AfterFirst(socket.View(), fds[i..], world, now);
      HandleMessage(socket, fds[i], world[fds[i]], now);
      i := i + 1;
    }
  }

  // ---------------------------------------------------------------- runs

  datatype Event =
    | Connect(remotes: seq<Remote>, fds: seq<int>)
    | Reconnect(i: nat, fd: int)
    | Ready(fd: int, x: Stimulus)
    | Say(msg: string)

  /** Descriptors that the kernel may hand out one after another. */
  predicate Fresh(open: set<int>, fds: seq<int>)
    decreases |fds|
  {
    fds != [] ==> fds[0] != 0 && fds[0] !in open && Fresh(open + {fds[0]}, fds[1..])
  }

  predicate Guard(s: State, e: Event) {
    match e
    case Connect(remotes, fds) => |fds| == |remotes| && Fresh(s.open, fds)
    case Reconnect(i, fd) => i < |s.tasks| && s.tasks[i].Enabled() && Fresh(s.open, [fd])
    case Ready(fd, x) => fd in Watched(s) && Fits(s, fd, x)
    case Say(msg) => true
  }

  function Step(s: State, e: Event, now: int): Outcome
    requires Guard(s, e)
  {
    match e
    case Connect(remotes, fds) => Done(ConnectTcp(s, remotes, fds))
    case Reconnect(i, fd) =>
      var t := s.tasks[i];
      Done(ConnectTcp(s.(tasks := s.tasks[i := Fired(t, FromDue, now)]), [t.remote], [fd]))
    case Ready(fd, x) => Handle(s, fd, x, now)
    case Say(msg) => Done(SendAll(s, msg))
  }

  datatype Timed = At(now: int, event: Event)

  predicate Runs(s: State, evs: seq<Timed>)
    decreases |evs|
  {
    evs != [] ==>
      && Guard(s, evs[0].event)
      && (Step(s, evs[0].event, evs[0].now).Done? ==> Runs(Step(s, evs[0].event, evs[0].now).state, evs[1..]))
  }

  function After(s: State, evs: seq<Timed>): Outcome
    requires Runs(s, evs)
    decreases |evs|
  {
    if evs == [] then Done(s)
    else
      var o := Step(s, evs[0].event, evs[0].now);
      if o.Done? then After(o.state, evs[1..]) else o
  }

  lemma {:induction false} ConnectKeepsInv(s: State, remotes: seq<Remote>, fds: seq<int>)
    requires TcpInv(s) && |fds| == |remotes| && Fresh(s.open, fds)
    ensures TcpInv(ConnectTcp(s, remotes, fds))
    decreases |remotes|
  {
    if remotes != [] && !Full(s) {
      FillKeepsInv(s, fds[0], remotes[0], true);
      ConnectKeepsInv(Fill(s, fds[0], remotes[0], true), remotes[1..], fds[1..]);
    }
  }

  lemma StepKeepsInv(s: State, e: Event, now: int)
    requires TcpInv(s) && Guard(s, e)
    ensures Step(s, e, now).Done? && TcpInv(Step(s, e, now).state)
  {
    match e {
      case Connect(remotes, fds) => ConnectKeepsInv(s, remotes, fds);
      case Reconnect(i, fd) =>
        ConnectKeepsInv(s.(tasks := s.tasks[i := Fired(s.tasks[i], FromDue, now)]), [s.tasks[i].remote], [fd]);
      case Ready(fd, x) => HandleKeepsInv(s, fd, x, now);
      case Say(msg) =>
    }
  }

  lemma {:induction false} RunsKeepInv(s: State, evs: seq<Timed>)
    requires TcpInv(s) && Runs(s, evs)
    ensures After(s, evs).Done? && TcpInv(After(s, evs).state)
    decreases |evs|
  {
    if evs != [] {
      StepKeepsInv(s, evs[0].event, evs[0].now);
      RunsKeepInv(Step(s, evs[0].event, evs[0].now).state, evs[1..]);
    }
  }

  /** A round of the receive loop is the run in which each selected descriptor is ready once, in order; so what holds of
      runs holds of rounds. */
  lemma {:induction false} RoundIsRun(s: State, fds: seq<int>, world: map<int, Stimulus>, now: int) returns (evs: seq<Timed>)
    requires TcpInv(s) && Distinct(fds) && (forall i :: 0 <= i < |fds| ==> fds[i] in Watched(s))
    requires FitsAll(s, fds, world, now)
    ensures |evs| == |fds| && forall k :: 0 <= k < |fds| ==> fds[k] in world && evs[k] == At(now, Ready(fds[k], world[fds[k]]))
    ensures Runs(s, evs) && After(s, evs) == HandleAll(s, fds, world, now)
    decreases |fds|
  {
    evs := [];
    if fds != [] {
      var s' := AfterFirst(s, fds, world, now);
      var rest := RoundIsRun(s', fds[1..], world, now);
      evs := [At(now, Ready(fds[0], world[fds[0]]))] + rest;
      assert evs[1..] == rest;
      assert forall k :: 0 < k < |fds| ==> evs[k] == rest[k - 1] && fds[k] == fds[1..][k - 1];
    }
  }

  // ---------------------------------------------------------------- descriptor ownership

  /** In every run of a TCP or DCCP socket nothing crashes; the open descriptors are exactly the main one
      and those of the live slots, all distinct; and cleaning up leaves none open. */
  lemma FdOwnership(protocol: Protocol, fd: int, evs: seq<Timed>)
    requires (protocol == TCP || protocol == DCCP) && fd != 0 && Runs(Initial(protocol, fd), evs)
    ensures After(Initial(protocol, fd), evs).Done?
    ensures var s := After(Initial(protocol, fd), evs).state;
            && s.open == {s.fd} + LiveFds(s.peers)
            && s.fd == fd && fd !in LiveFds(s.peers)
            && (forall i, j :: 0 <= i < j < |s.peers| && s.peers[i].fd != 0 ==> s.peers[i].fd != s.peers[j].fd)
            && CleanUp(s).open == {}
  {
    InitialIsOk(protocol, fd);
    RunsKeepInv(Initial(protocol, fd), evs);
    MainFdStays(Initial(protocol, fd), evs);
    var s := After(Initial(protocol, fd), evs).state;
    assert CleanUp(s).open == {};
  }

  lemma {:induction false} ConnectKeepsMainFd(s: State, remotes: seq<Remote>, fds: seq<int>)
    requires |fds| == |remotes|
    ensures ConnectTcp(s, remotes, fds).fd == s.fd
    decreases |remotes|
  {
    if remotes != [] && !Full(s) {
      ConnectKeepsMainFd(Fill(s, fds[0], remotes[0], true), remotes[1..], fds[1..]);
    }
  }

  lemma {:induction false} MainFdStays(s: State, evs: seq<Timed>)
    requires TcpInv(s) && Runs(s, evs)
    ensures After(s, evs).Done? && After(s, evs).state.fd == s.fd
    decreases |evs|
  {
    if evs != [] {
      var e := evs[0].event;
      StepKeepsInv(s, e, evs[0].now);
      if e.Connect? {
        ConnectKeepsMainFd(s, e.remotes, e.fds);
      } else if e.Reconnect? {
        ConnectKeepsMainFd(s.(tasks := s.tasks[e.i := Fired(s.tasks[e.i], FromDue, evs[0].now)]), [s.tasks[e.i].remote], [e.fd]);
      }
      MainFdStays(Step(s, e, evs[0].now).state, evs[1..]);
    }
  }

  // ---------------------------------------------------------------- flow

  /** Slots whose descriptor is open. */
  predicate Held(p: Peer) { p.fd != 0 }

  /** Those of them that this socket connected, and would connect again. */
  predicate Outgoing(p: Peer) { p.fd != 0 && p.shouldReestablish }

  function LiveOf(outgoing: bool): Peer -> bool {
    if outgoing then Outgoing else Held
  }

  lemma LiveOfAt(outgoing: bool, who: Who, p: Peer)
    ensures LiveOf(outgoing)(p) == (p.fd != 0 && (outgoing ==> p.shouldReestablish))
    ensures LiveAmong(LiveOf(outgoing), who)(p) == if LiveOf(outgoing)(p) && who.Is(p.remote) then 1 else 0
  {
    if outgoing {
      assert LiveOf(outgoing) == Outgoing;
    } else {
      assert LiveOf(outgoing) == Held;
    }
    LiveAmongAt(LiveOf(outgoing), who, p);
  }

  /** `outgoing`: follow only outgoing connections. */
  function FlowOf(s: State, e: Event, outgoing: bool): Flow
    requires |s.peers| <= PEERS_MAX_COUNT && Guard(s, e)
  {
    match e
    case Say(msg) => Flow([], [], [], [])
    case Connect(remotes, fds) => Flow(Admitted(s, remotes), [], [], [])
    case Reconnect(i, fd) => Flow(Admitted(s, [s.tasks[i].remote]), [], [], [s.tasks[i].remote])
    case Ready(fd, x) =>
      if fd == s.fd then Flow(if outgoing then [] else Admitted(s, [x.remote]), [], [], [])
      else
        var found := FindFd(s, fd);
        if found.None? || !(IsLoss(s, x) || IsGoodbye(s, x)) then Flow([], [], [], [])
        else
          var p := s.peers[found.value];
          Flow([], if outgoing && !p.shouldReestablish then [] else [p.remote],
               if IsLoss(s, x) && p.shouldReestablish then [p.remote] else [], [])
  }

  lemma FillFlow(s: State, fd: int, r: Remote, isOutgoing: bool, outgoing: bool, who: Who)
    requires fd != 0
    ensures LiveCount(Fill(s, fd, r, isOutgoing), LiveOf(outgoing), who)
            == LiveCount(s, LiveOf(outgoing), who) + if (isOutgoing || !outgoing) && who.Is(r) then 1 else 0
  {
    var p := BLANK.(fd := fd, remote := r, shouldReestablish := isOutgoing);
    SumAppend(s.peers, p, LiveAmong(LiveOf(outgoing), who));
    LiveOfAt(outgoing, who, p);
  }

  lemma {:induction false} ConnectFlow(s: State, remotes: seq<Remote>, fds: seq<int>, outgoing: bool, who: Who)
    requires |s.peers| <= PEERS_MAX_COUNT && |fds| == |remotes| && Fresh(s.open, fds)
    ensures var s' := ConnectTcp(s, remotes, fds);
            && Obeys(s, s', LiveOf(outgoing), Flow(Admitted(s, remotes), [], [], []), who)
            && |s'.peers| == |s.peers| + |Admitted(s, remotes)|
    decreases |remotes|
  {
    if remotes != [] && !Full(s) {
      var s1 := Fill(s, fds[0], remotes[0], true);
      FillFlow(s, fds[0], remotes[0], true, outgoing, who);
      ConnectFlow(s1, remotes[1..], fds[1..], outgoing, who);
      assert Admitted(s, remotes) == [remotes[0]] + Admitted(s1, remotes[1..]);
      SumConcat([remotes[0]], Admitted(s1, remotes[1..]), Among(who));
      CountOne(remotes[0], who);
    }
  }

  lemma RemovalFlow(s: State, j: nat, outgoing: bool, who: Who)
    requires TcpInv(s) && j < |s.peers| && s.peers[j].fd != 0
    ensures LiveCount(RemoveAt(s, j), LiveOf(outgoing), who) + (if LiveOf(outgoing)(s.peers[j]) && who.Is(s.peers[j].remote) then 1 else 0)
            == LiveCount(s, LiveOf(outgoing), who)
    ensures PendingCount(RemoveAt(s, j), who) == PendingCount(s, who)
  {
    var p := s.peers[j];
    SumUpdate(s.peers, j, Tombstone(s.protocol, p), LiveAmong(LiveOf(outgoing), who));
    LiveOfAt(outgoing, who, p);
    LiveOfAt(outgoing, who, Tombstone(s.protocol, p));
  }

  lemma CommLostFlow(s: State, fd: int, now: int, outgoing: bool, who: Who)
    requires TcpInv(s) && fd in Watched(s) && fd != s.fd
    ensures CommLostTcp(s, fd, now).Done? && FindFd(s, fd).Some?
    ensures var s', p := CommLostTcp(s, fd, now).state, s.peers[FindFd(s, fd).value];
            && |s'.peers| == |s.peers|
            && Obeys(s, s', LiveOf(outgoing),
                     Flow([], if outgoing && !p.shouldReestablish then [] else [p.remote],
                          if p.shouldReestablish then [p.remote] else [], []), who)
  {
    CommLostKeepsInv(s, fd, now);
    WatchedIsFound(s, fd);
    var j := FindFd(s, fd).value;
    CountOne(s.peers[j].remote, who);
    LiveOfAt(outgoing, who, s.peers[j]);
    if s.peers[j].shouldReestablish {
      OweReconnect(s, s.peers[j].remote, now, outgoing, who);
      RemovalFlow(AddTask(s, Reestablish, s.peers[j].remote, now), j, outgoing, who);
    } else {
      RemovalFlow(s, j, outgoing, who);
    }
  }

  lemma OweReconnect(s: State, r: Remote, now: int, outgoing: bool, who: Who)
    requires TcpInv(s)
    ensures var s1 := AddTask(s, Reestablish, r, now);
            && TcpInv(s1) && LiveCount(s1, LiveOf(outgoing), who) == LiveCount(s, LiveOf(outgoing), who)
            && PendingCount(s1, who) == PendingCount(s, who) + if who.Is(r) then 1 else 0
  {
    SumAppend(s.tasks, NewTask(Reestablish, r, now), PendingAmong(who));
    assert FdsOwned(AddTask(s, Reestablish, r, now));
  }

  lemma ShutdownFlow(s: State, fd: int, outgoing: bool, who: Who)
    requires TcpInv(s) && fd in Watched(s) && fd != s.fd
    ensures GracefulShutdownTcp(s, fd).Done? && FindFd(s, fd).Some?
    ensures var s', p := GracefulShutdownTcp(s, fd).state, s.peers[FindFd(s, fd).value];
            && |s'.peers| == |s.peers|
            && Obeys(s, s', LiveOf(outgoing), Flow([], if outgoing && !p.shouldReestablish then [] else [p.remote], [], []), who)
  {
    ShutdownKeepsInv(s, fd);
    WatchedIsFound(s, fd);
    var p := s.peers[FindFd(s, fd).value];
    CountOne(p.remote, who);
    RemovalFlow(s, FindFd(s, fd).value, outgoing, who);
    LiveOfAt(outgoing, who, p);
  }

  lemma ReadyFlow(s: State, fd: int, x: Stimulus, now: int, outgoing: bool, who: Who)
    requires TcpInv(s) && Guard(s, Ready(fd, x))
    ensures Handle(s, fd, x, now).Done?
    ensures var s' := Handle(s, fd, x, now).state;
            && Obeys(s, s', LiveOf(outgoing), FlowOf(s, Ready(fd, x), outgoing), who)
            && |s'.peers| == |s.peers| + |FlowOf(s, Ready(fd, x), false).liveIn|
  {
    if fd == s.fd {
      AcceptFlow(s, x, outgoing, who);
    } else if IsLoss(s, x) {
      CommLostFlow(s, fd, now, outgoing, who);
    } else if IsGoodbye(s, x) {
      ShutdownFlow(s, fd, outgoing, who);
    }
  }

  lemma AcceptFlow(s: State, x: Stimulus, outgoing: bool, who: Who)
    requires TcpInv(s) && Guard(s, Ready(s.fd, x))
    ensures var s' := CommUpTcp(s, x.fd, x.remote);
            && Obeys(s, s', LiveOf(outgoing), FlowOf(s, Ready(s.fd, x), outgoing), who)
            && |s'.peers| == |s.peers| + |Admitted(s, [x.remote])|
  {
    if !Full(s) {
      FillFlow(s, x.fd, x.remote, false, outgoing, who);
      CountOne(x.remote, who);
      assert Admitted(s, [x.remote]) == [x.remote];
    }
  }

  lemma ReconnectFlow(s: State, i: nat, fd: int, now: int, outgoing: bool, who: Who)
    requires TcpInv(s) && Guard(s, Reconnect(i, fd))
    ensures var s' := Step(s, Reconnect(i, fd), now).state;
            && Obeys(s, s', LiveOf(outgoing), FlowOf(s, Reconnect(i, fd), outgoing), who)
            && |s'.peers| == |s.peers| + |FlowOf(s, Reconnect(i, fd), false).liveIn|
  {
    var t := s.tasks[i];
    var s1 := s.(tasks := s.tasks[i := Fired(t, FromDue, now)]);
    SumUpdate(s.tasks, i, Fired(t, FromDue, now), PendingAmong(who));
    CountOne(t.remote, who);
    ConnectFlow(s1, [t.remote], [fd], outgoing, who);
  }

  lemma StepFlow(s: State, e: Event, now: int, outgoing: bool, who: Who)
    requires TcpInv(s) && Guard(s, e)
    ensures Step(s, e, now).Done?
    ensures var s' := Step(s, e, now).state;
            && Obeys(s, s', LiveOf(outgoing), FlowOf(s, e, outgoing), who)
            && |s'.peers| == |s.peers| + |FlowOf(s, e, false).liveIn|
  {
    match e {
      case Say(msg) =>
      case Connect(remotes, fds) => ConnectFlow(s, remotes, fds, outgoing, who);
      case Reconnect(i, fd) => ReconnectFlow(s, i, fd, now, outgoing, who);
      case Ready(fd, x) => ReadyFlow(s, fd, x, now, outgoing, who);
    }
  }

  // ---------------------------------------------------------------- conservation

  /** The ledger of the outgoing connections. */
  function Enter(l: Ledger, s: State, e: Event, who: Who): Ledger
    requires |s.peers| <= PEERS_MAX_COUNT && Guard(s, e)
  {
    match e
    case Say(msg) => l
    case Connect(remotes, fds) =>
      l.(requested := l.requested + Count(remotes, who), dropped := l.dropped + Count(Refused(s, remotes), who))
    case Reconnect(i, fd) => l.(dropped := l.dropped + Count(Refused(s, [s.tasks[i].remote]), who))
    case Ready(fd, x) =>
      var found := FindFd(s, fd);
      if fd != s.fd && found.Some? && IsGoodbye(s, x) && s.peers[found.value].shouldReestablish
      then l.(shut := l.shut + Count([s.peers[found.value].remote], who))
      else l
  }

  lemma FlowBalances(s: State, s': State, e: Event, who: Who, l: Ledger)
    requires |s.peers| <= PEERS_MAX_COUNT && Guard(s, e)
    requires Obeys(s, s', Outgoing, FlowOf(s, e, true), who) && Balanced(s, Outgoing, who, l)
    ensures Balanced(s', Outgoing, who, Enter(l, s, e, who))
  {
    match e {
      case Say(msg) =>
      case Connect(remotes, fds) => AdmittedOrRefused(s, remotes, who);
      case Reconnect(i, fd) => AdmittedOrRefused(s, [s.tasks[i].remote], who);
      case Ready(fd, x) =>
    }
  }

  function LedgerOf(l: Ledger, s: State, evs: seq<Timed>, who: Who): Ledger
    requires TcpInv(s) && Runs(s, evs)
    decreases |evs|
  {
    if evs == [] then l
    else
      StepKeepsInv(s, evs[0].event, evs[0].now);
      LedgerOf(Enter(l, s, evs[0].event, who), Step(s, evs[0].event, evs[0].now).state, evs[1..], who)
  }

  lemma {:induction false} RunsBalance(s: State, evs: seq<Timed>, who: Who, l: Ledger)
    requires TcpInv(s) && Runs(s, evs) && Balanced(s, Outgoing, who, l)
    ensures After(s, evs).Done? && Balanced(After(s, evs).state, Outgoing, who, LedgerOf(l, s, evs, who))
    decreases |evs|
  {
    if evs != [] {
      var e := evs[0];
      StepKeepsInv(s, e.event, e.now);
      StepFlow(s, e.event, e.now, true, who);
      FlowBalances(s, Step(s, e.event, e.now).state, e.event, who, l);
      RunsBalance(Step(s, e.event, e.now).state, evs[1..], who, Enter(l, s, e.event, who));
    }
  }

  /** In every run, per remote and in all: live outgoing peers and pending reconnects are the connects
      asked for, less the orderly ends and the attempts for which there was no slot. In particular a
      pending reconnect is always to an address and port that was asked for. */
  lemma TcpConservation(protocol: Protocol, fd: int, evs: seq<Timed>, who: Who)
    requires (protocol == TCP || protocol == DCCP) && fd != 0 && Runs(Initial(protocol, fd), evs)
    ensures After(Initial(protocol, fd), evs).Done? && TcpInv(Initial(protocol, fd))
    ensures var s, l := After(Initial(protocol, fd), evs).state, LedgerOf(EMPTY_LEDGER, Initial(protocol, fd), evs, who);
            && LiveCount(s, Outgoing, who) + PendingCount(s, who) + l.shut + l.dropped == l.requested
            && l.learned == 0
  {
    InitialIsOk(protocol, fd);
    RunsBalance(Initial(protocol, fd), evs, who, EMPTY_LEDGER);
    NothingLearned(EMPTY_LEDGER, Initial(protocol, fd), evs, who);
  }

  lemma {:induction false} NothingLearned(l: Ledger, s: State, evs: seq<Timed>, who: Who)
    requires TcpInv(s) && Runs(s, evs) && l.learned == 0
    ensures LedgerOf(l, s, evs, who).learned == 0
    decreases |evs|
  {
    if evs != [] {
      StepKeepsInv(s, evs[0].event, evs[0].now);
      NothingLearned(Enter(l, s, evs[0].event, who), Step(s, evs[0].event, evs[0].now).state, evs[1..], who);
    }
  }

  // ---------------------------------------------------------------- churn

  function Churn(s: State, e: Event): nat
    requires |s.peers| <= PEERS_MAX_COUNT && Guard(s, e)
  {
    var f := FlowOf(s, e, false);
    |f.liveIn| + |f.liveOut| + |f.pendingOut|
  }

  function TotalChurn(s: State, evs: seq<Timed>): nat
    requires TcpInv(s) && Runs(s, evs)
    decreases |evs|
  {
    if evs == [] then 0
    else
      StepKeepsInv(s, evs[0].event, evs[0].now);
      Churn(s, evs[0].event) + TotalChurn(Step(s, evs[0].event, evs[0].now).state, evs[1..])
  }

  lemma StepSpendsWeight(s: State, e: Event, now: int)
    requires TcpInv(s) && Guard(s, e)
    ensures Step(s, e, now).Done?
    ensures Weight(Step(s, e, now).state, Held) + Churn(s, e) <= Weight(s, Held)
  {
    StepFlow(s, e, now, false, Anyone);
    var f := FlowOf(s, e, false);
    CountAnyone(f.liveIn);
    CountAnyone(f.liveOut);
    CountAnyone(f.pendingIn);
    CountAnyone(f.pendingOut);
  }

  lemma {:induction false} RunsSpendWeight(s: State, evs: seq<Timed>)
    requires TcpInv(s) && Runs(s, evs)
    ensures After(s, evs).Done? && |After(s, evs).state.peers| <= PEERS_MAX_COUNT
    ensures Weight(After(s, evs).state, Held) + TotalChurn(s, evs) <= Weight(s, Held)
    decreases |evs|
  {
    if evs != [] {
      StepKeepsInv(s, evs[0].event, evs[0].now);
      StepSpendsWeight(s, evs[0].event, evs[0].now);
      RunsSpendWeight(Step(s, evs[0].event, evs[0].now).state, evs[1..]);
    }
  }

  /** However long it runs, a socket sees at most thirty comm-ups, comm-losts, orderly ends and reconnects. */
  lemma TcpChurnIsBounded(protocol: Protocol, fd: int, evs: seq<Timed>)
    requires (protocol == TCP || protocol == DCCP) && fd != 0 && Runs(Initial(protocol, fd), evs)
    ensures TcpInv(Initial(protocol, fd)) && TotalChurn(Initial(protocol, fd), evs) <= 30
  {
    InitialIsOk(protocol, fd);
    RunsSpendWeight(Initial(protocol, fd), evs);
  }

  // ---------------------------------------------------------------- slots

  lemma {:induction false} ConnectKeepsSlots(s: State, remotes: seq<Remote>, fds: seq<int>)
    requires |fds| == |remotes|
    ensures |ConnectTcp(s, remotes, fds).peers| >= |s.peers|
    ensures ConnectTcp(s, remotes, fds).peers[..|s.peers|] == s.peers
    decreases |remotes|
  {
    if remotes != [] && !Full(s) {
      var s1 := Fill(s, fds[0], remotes[0], true);
      ConnectKeepsSlots(s1, remotes[1..], fds[1..]);
      assert s1.peers[..|s.peers|] == s.peers;
      assert ConnectTcp(s, remotes, fds).peers[..|s.peers|] == s1.peers[..|s.peers|];
    }
  }

  lemma StepKeepsSlots(s: State, e: Event, now: int, j: nat)
    requires Guard(s, e) && Step(s, e, now).Done? && j < |s.peers|
    ensures var s' := Step(s, e, now).state;
            j < |s'.peers| && (s'.peers[j] == s.peers[j] || s'.peers[j] == Tombstone(s.protocol, s.peers[j]))
  {
    match e {
      case Connect(remotes, fds) =>
        ConnectKeepsSlots(s, remotes, fds);
        assert s.peers[j] == ConnectTcp(s, remotes, fds).peers[..|s.peers|][j];
      case Reconnect(i, fd) =>
        var s1 := s.(tasks := s.tasks[i := Fired(s.tasks[i], FromDue, now)]);
        ConnectKeepsSlots(s1, [s.tasks[i].remote], [fd]);
        assert s.peers[j] == ConnectTcp(s1, [s.tasks[i].remote], [fd]).peers[..|s.peers|][j];
      case Ready(fd, x) =>
      case Say(msg) =>
    }
  }

  /** A slot given up is never used again, in any run. */
  lemma {:induction false} DeadSlotsStayDead(s: State, evs: seq<Timed>, j: nat)
    requires TcpInv(s) && Runs(s, evs) && j < |s.peers| && !Held(s.peers[j])
    ensures After(s, evs).Done? && j < |After(s, evs).state.peers| && !Held(After(s, evs).state.peers[j])
    decreases |evs|
  {
    if evs != [] {
      StepKeepsInv(s, evs[0].event, evs[0].now);
      StepKeepsSlots(s, evs[0].event, evs[0].now, j);
      DeadSlotsStayDead(Step(s, evs[0].event, evs[0].now).state, evs[1..], j);
    }
  }
}
