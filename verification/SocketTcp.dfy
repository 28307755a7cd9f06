/** Connection-oriented peers, keyed by descriptor: the TCP handlers, the DCCP handlers that
    share their table, and the receive loop that runs them over a snapshot of ready descriptors. */
module SocketTcp {
  import opened Sockets
  import opened FdSets

  // ---------------------------------------------------------------- handlers as functions

  /** What the kernel has for a ready descriptor: a connection to accept, an error, or a message,
      of which `text` is what stands in the buffer before the first null character. */
  datatype Stimulus = Incoming(fd: int, remote: Remote) | Failed | Data(text: string)

  function FindFd(s: State, fd: int): (r: Option<nat>)
    ensures r.Some? ==> r.value < |s.peers| && s.peers[r.value].fd == fd
    ensures r.None? ==> forall j :: 0 <= j < |s.peers| ==> s.peers[j].fd != fd
  {
    var r := Find(ByFd, s.peers, FdKey(fd));
    assert forall j :: 0 <= j < |s.peers| ==> KeyOf(ByFd, s.peers[j]) == FdKey(s.peers[j].fd);
    r
  }

  /** A new slot with a descriptor the kernel has just opened. */
  function Fill(s: State, fd: int, remote: Remote, outgoing: bool): State {
    s.(peers := s.peers + [BLANK.(fd := fd, remote := remote, shouldReestablish := outgoing)],
       open := s.open + {fd})
  }

  function ConnectTcp(s: State, remotes: seq<Remote>, fds: seq<int>): State
    requires |fds| == |remotes|
    decreases |remotes|
  {
    if remotes == [] || Full(s) then s
    else ConnectTcp(Fill(s, fds[0], remotes[0], true), remotes[1..], fds[1..])
  }

  function CommUpTcp(s: State, fd: int, remote: Remote): State {
    if Full(s) then s else Fill(s, fd, remote, false)
  }

  function CommLostTcp(s: State, fd: int, now: int): Outcome {
    var found := FindFd(s, fd);
    if found.None? then NullPeer
    else
      var p := s.peers[found.value];
      RemoveFound(if p.shouldReestablish then AddTask(s, Reestablish, p.remote, now) else s, found)
  }

  function GracefulShutdownTcp(s: State, fd: int): Outcome {
    RemoveFound(s, FindFd(s, fd))
  }

  /** What can become of a descriptor: an error ends a DCCP run in an error check. */
  predicate Fits(s: State, fd: int, x: Stimulus) {
    if fd == s.fd then x.Incoming? && x.fd != 0 && x.fd !in s.open
    else x.Data? || (x.Failed? && s.protocol == TCP)
  }

  function HandleTcp(s: State, fd: int, x: Stimulus, now: int): Outcome
    requires Fits(s, fd, x)
  {
    if fd == s.fd then Done(CommUpTcp(s, x.fd, x.remote))
    else if x.Failed? then CommLostTcp(s, fd, now)
    else if x.text == "" then GracefulShutdownTcp(s, fd)
    else Done(s)
  }

  function HandleDccp(s: State, fd: int, x: Stimulus, now: int): Outcome
    requires Fits(s, fd, x) && s.protocol != TCP
  {
    if fd == s.fd then Done(CommUpTcp(s, x.fd, x.remote))
    else if x.text == "" then CommLostTcp(s, fd, now)
    else if x.text == QUIT_MSG then GracefulShutdownTcp(s, fd)
    else Done(s)
  }

  function Handle(s: State, fd: int, x: Stimulus, now: int): Outcome
    requires Fits(s, fd, x)
  {
    if s.protocol == TCP then HandleTcp(s, fd, x, now) else HandleDccp(s, fd, x, now)
  }

  /** The kernel's side of a round: every stimulus fits the state it arrives in. */
  predicate FitsAll(s: State, fds: seq<int>, world: map<int, Stimulus>, now: int)
    decreases |fds|
  {
    fds != [] ==>
      && fds[0] in world && Fits(s, fds[0], world[fds[0]])
      && (Handle(s, fds[0], world[fds[0]], now).Done? ==>
            FitsAll(Handle(s, fds[0], world[fds[0]], now).state, fds[1..], world, now))
  }

  function HandleAll(s: State, fds: seq<int>, world: map<int, Stimulus>, now: int): Outcome
    requires FitsAll(s, fds, world, now)
    decreases |fds|
  {
    if fds == [] then Done(s)
    else
      var o := Handle(s, fds[0], world[fds[0]], now);
      if o.Done? then HandleAll(o.state, fds[1..], world, now) else o
  }

  /** What select is asked to watch. */
  function Watched(s: State): set<int> {
    {s.fd} + LiveFds(s.peers)
  }

  function Receive(s: State, ready: set<int>, hi: nat, world: map<int, Stimulus>, now: int): Outcome
    requires FitsAll(s, Chosen(ready, hi), world, now)
  {
    HandleAll(s, Chosen(ready, hi), world, now)
  }

  // ---------------------------------------------------------------- handlers as methods

  method FindPeerByFd(socket: Socket, fd: int) returns (r: Option<nat>)
    requires socket.Valid()
    ensures r == FindFd(socket.View(), fd)
  {
    r := socket.FindPeer(ByFd, FdKey(fd));
  }

  /** The kernel opens fds[i] for the i-th remote, if there is a slot for it. */
  method ConnectSocketTcp(socket: Socket, remotes: seq<Remote>, fds: seq<int>)
    requires socket.Valid() && |fds| == |remotes|
    modifies socket, socket.peers
    ensures socket.Valid() && socket.View() == ConnectTcp(old(socket.View()), remotes, fds)
  {
    var i := 0;
    while i < |remotes|
      invariant i <= |remotes| && socket.Valid()
      invariant ConnectTcp(socket.View(), remotes[i..], fds[i..]) == ConnectTcp(old(socket.View()), remotes, fds)
    {
      if socket.peerCount >= PEERS_MAX_COUNT {
        return;
      }
      assert remotes[i..][1..] == remotes[i + 1..] && fds[i..][1..] == fds[i + 1..];
      FillSlot(socket, fds[i], remotes[i], true);
      i := i + 1;
    }
  }

  method FillSlot(socket: Socket, fd: int, remote: Remote, outgoing: bool)
    requires socket.Valid() && socket.peerCount < PEERS_MAX_COUNT
    modifies socket, socket.peers
    ensures socket.Valid() && socket.View() == Fill(old(socket.View()), fd, remote, outgoing)
  {
    ghost var before := socket.View();
    var i := socket.peerCount;
    socket.open := socket.open + {fd};
    socket.peerCount := socket.peerCount + 1;
    socket.peers[i] := socket.peers[i].(fd := fd);
    socket.peers[i] := socket.peers[i].(remote := remote);
    socket.peers[i] := socket.peers[i].(shouldReestablish := outgoing);
    assert socket.View().peers == Fill(before, fd, remote, outgoing).peers;
  }

  method HandleCommUpTcp(socket: Socket, fd: int, remote: Remote)
    requires socket.Valid()
    modifies socket, socket.peers
    ensures socket.Valid() && socket.View() == CommUpTcp(old(socket.View()), fd, remote)
  {
    if socket.peerCount >= PEERS_MAX_COUNT {
      return;
    }
    FillSlot(socket, fd, remote, false);
  }

  method HandleCommLostTcp(socket: Socket, fd: int, now: int) returns (crash: bool)
    requires socket.Valid() && FdsOwned(socket.View())
    modifies socket, socket.peers
    ensures socket.Valid()
    ensures crash <==> CommLostTcp(old(socket.View()), fd, now).NullPeer?
    ensures !crash ==> CommLostTcp(old(socket.View()), fd, now) == Done(socket.View())
  {
    var found := FindPeerByFd(socket, fd);
    if found.None? {
      return true;
    }
    var j := found.value;
    assert socket.View().peers[j] == socket.peers[j];
    if socket.peers[j].shouldReestablish {
      socket.ScheduleReestablishment(socket.peers[j].remote, now);
    }
    if socket.peers[j].fd != 0 {
      LiveFdIsOpen(socket.View(), j);
    }
    socket.RemovePeer(j);
    return false;
  }

  method HandleGracefulShutdownTcp(socket: Socket, fd: int) returns (crash: bool)
    requires socket.Valid() && FdsOwned(socket.View())
    modifies socket, socket.peers
    ensures socket.Valid()
    ensures crash <==> GracefulShutdownTcp(old(socket.View()), fd).NullPeer?
    ensures !crash ==> GracefulShutdownTcp(old(socket.View()), fd) == Done(socket.View())
  {
    var found := FindPeerByFd(socket, fd);
    if found.None? {
      return true;
    }
    assert socket.View().peers[found.value] == socket.peers[found.value];
    if socket.peers[found.value].fd != 0 {
      LiveFdIsOpen(socket.View(), found.value);
    }
    socket.RemovePeer(found.value);
    return false;
  }

  method HandleMessageTcp(socket: Socket, fd: int, x: Stimulus, now: int) returns (crash: bool)
    requires socket.Valid() && FdsOwned(socket.View()) && Fits(socket.View(), fd, x)
    modifies socket, socket.peers
    ensures socket.Valid()
    ensures crash <==> HandleTcp(old(socket.View()), fd, x, now).NullPeer?
    ensures !crash ==> HandleTcp(old(socket.View()), fd, x, now) == Done(socket.View())
  {
    if fd == socket.fd {
      HandleCommUpTcp(socket, x.fd, x.remote);
      return false;
    }
    if x.Failed? {
      crash := HandleCommLostTcp(socket, fd, now);
      return;
    }
    if x.text == "" {
      crash := HandleGracefulShutdownTcp(socket, fd);
      return;
    }
    return false;
  }

  method HandleMessageDccp(socket: Socket, fd: int, x: Stimulus, now: int) returns (crash: bool)
    requires socket.Valid() && FdsOwned(socket.View()) && Fits(socket.View(), fd, x) && socket.protocol != TCP
    modifies socket, socket.peers
    ensures socket.Valid()
    ensures crash <==> HandleDccp(old(socket.View()), fd, x, now).NullPeer?
    ensures !crash ==> HandleDccp(old(socket.View()), fd, x, now) == Done(socket.View())
  {
    if fd == socket.fd {
      HandleCommUpTcp(socket, x.fd, x.remote);
      return false;
    }
    if x.text == "" {
      crash := HandleCommLostTcp(socket, fd, now);
      return;
    }
    if x.text == QUIT_MSG {
      crash := HandleGracefulShutdownTcp(socket, fd);
      return;
    }
    return false;
  }

  method SelectFds(socket: Socket, fdSet: FDSet, ready: set<int>)
    requires socket.Valid() && fdSet.Valid() && socket.fd >= 0
    requires forall j :: 0 <= j < |socket.View().peers| ==> socket.View().peers[j].fd >= 0
    requires forall f :: f in ready ==>
               f == socket.fd || exists j :: 0 <= j < |socket.View().peers| && socket.View().peers[j].fd == f != 0
    modifies fdSet, fdSet.selectedFds
    ensures fdSet.Valid() && forall f :: f in ready ==> 0 <= f < fdSet.fdMax
    ensures fdSet.Selected() == Chosen(ready, fdSet.fdMax)
  {
    fdSet.Clear();
    fdSet.SetFd(socket.fd);
    ghost var peers := socket.View().peers;
    var i := 0;
    while i < socket.peerCount
      invariant i <= socket.peerCount && fdSet.Valid() && fdSet.Bounded()
      invariant fdSet.fds == {socket.fd} + LiveFds(peers[..i])
    {
      assert peers[i] == socket.peers[i] && peers[..i + 1] == peers[..i] + [peers[i]];
      LiveFdsGrow(peers[..i], peers[i]);
      if socket.peers[i].fd != 0 {
        fdSet.SetFd(socket.peers[i].fd);
      }
      i := i + 1;
    }
    assert peers[..i] == peers;
    assert ready <= fdSet.fds;
    fdSet.SelectFdSet(ready);
  }
}
