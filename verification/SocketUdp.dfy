/** The keep-alive state machine of the UDP socket.

    A peer slot owns two tasks, a ping repeated three times and a one-shot
    comm-lost. Any message from the peer resets both; when comm-lost fires the
    slot is given up and a reconnect is scheduled. */
module SocketUdp {
  import opened Sockets

  const KEEP_ALIVE_MSG := "ka"
  const KEEP_ALIVE_ACK_MSG := "kack"

  // ---------------------------------------------------------------- handlers as functions

  function SendTo(s: State, remote: Remote, msg: string): State {
    s.(sent := s.sent + [Sent(RemoteKey(remote), msg)])
  }

  function FindRemote(s: State, remote: Remote): (r: Option<nat>)
    ensures r.Some? ==> r.value < |s.peers| && s.peers[r.value].remote == remote
    ensures r.None? ==> forall j :: 0 <= j < |s.peers| ==> s.peers[j].remote != remote
  {
    var r := Find(ByRemote, s.peers, RemoteKey(remote));
    assert forall j :: 0 <= j < |s.peers| ==> KeyOf(ByRemote, s.peers[j]) == RemoteKey(s.peers[j].remote);
    r
  }

  function CommUpUdp(s: State, remote: Remote, now: int): State {
    if Full(s) then s
    else
      var h := |s.tasks|;
      s.(peers := s.peers + [BLANK.(remote := remote, ping := Some(h), commLost := Some(h + 1))],
         tasks := s.tasks + [NewTask(Ping, remote, now), NewTask(CommLost, remote, now)])
  }

  function ConnectUdp(s: State, remotes: seq<Remote>, now: int): State
    decreases |remotes|
  {
    if remotes == [] then s else ConnectUdp(CommUpUdp(s, remotes[0], now), remotes[1..], now)
  }

  function CommLostUdp(s: State, remote: Remote, now: int): Outcome {
    RemoveFound(AddTask(s, Reestablish, remote, now), FindRemote(s, remote))
  }

  function ResetTasks(s: State, j: nat, now: int): Outcome
    requires j < |s.peers|
  {
    var p := s.peers[j];
    if p.ping.None? || p.commLost.None? then NullTask
    else Done(s.(tasks := ResetAt(ResetAt(s.tasks, p.ping.value, now), p.commLost.value, now)))
  }

  function ResetAt(tasks: seq<Task>, h: nat, now: int): (r: seq<Task>)
    ensures |r| == |tasks|
  {
    if h < |tasks| then tasks[h := Reset(tasks[h], now)] else tasks
  }

  /** `msg` is the text left in the message buffer. */
  function HandleUdp(s: State, from: Remote, msg: string, now: int): Outcome {
    var found := FindRemote(s, from);
    if msg == QUIT_MSG then RemoveFound(s, found)
    else
      var answered := if msg == KEEP_ALIVE_MSG then SendTo(s, from, KEEP_ALIVE_ACK_MSG) else s;
      if found.Some? then ResetTasks(answered, found.value, now)
      else Done(CommUpUdp(answered, from, now))
  }

  // ---------------------------------------------------------------- handlers as methods

  method SendSocketUdpToRemote(socket: Socket, msg: string, remote: Remote)
    requires socket.Valid()
    modifies socket`sent
    ensures socket.Valid() && socket.View() == SendTo(old(socket.View()), remote, msg)
  {
    socket.sent := socket.sent + [Sent(RemoteKey(remote), msg)];
  }

  method FindPeerByRemote(socket: Socket, remote: Remote) returns (r: Option<nat>)
    requires socket.Valid()
    ensures r == FindRemote(socket.View(), remote)
  {
    r := socket.FindPeer(ByRemote, RemoteKey(remote));
  }

  method HandleCommUpUdp(socket: Socket, remote: Remote, now: int)
    requires socket.Valid()
    modifies socket, socket.peers
    ensures socket.Valid() && socket.View() == CommUpUdp(old(socket.View()), remote, now)
  {
    if socket.peerCount >= PEERS_MAX_COUNT {
      return;
    }
    ghost var before := socket.View();
    var i := socket.peerCount;
    socket.peerCount := socket.peerCount + 1;
    socket.peers[i] := socket.peers[i].(remote := remote);
    var ping := socket.ScheduleTask(Ping, remote, now);
    socket.peers[i] := socket.peers[i].(ping := Some(ping));
    var commLost := socket.ScheduleTask(CommLost, remote, now);
    socket.peers[i] := socket.peers[i].(commLost := Some(commLost));
    assert socket.View().peers == CommUpUdp(before, remote, now).peers;
  }

  method ConnectSocketUdp(socket: Socket, remotes: seq<Remote>, now: int)
    requires socket.Valid()
    modifies socket, socket.peers
    ensures socket.Valid() && socket.View() == ConnectUdp(old(socket.View()), remotes, now)
  {
    var i := 0;
    while i < |remotes|
      invariant i <= |remotes| && socket.Valid()
      invariant ConnectUdp(socket.View(), remotes[i..], now) == ConnectUdp(old(socket.View()), remotes, now)
    {
      assert remotes[i..][1..] == remotes[i + 1..];
      HandleCommUpUdp(socket, remotes[i], now);
      i := i + 1;
    }
  }

  /** crash: a null pointer is followed. */
  method HandleCommLostUdp(socket: Socket, remote: Remote, now: int) returns (crash: bool)
    requires socket.Valid() && FdsOwned(socket.View())
    modifies socket, socket.peers
    ensures socket.Valid()
    ensures crash <==> CommLostUdp(old(socket.View()), remote, now).NullPeer?
    ensures !crash ==> CommLostUdp(old(socket.View()), remote, now) == Done(socket.View())
  {
    socket.ScheduleReestablishment(remote, now);
    var found := FindPeerByRemote(socket, remote);
    if found.None? {
      return true;
    }
    RemoveOwned(socket, found.value);
    return false;
  }

  method RemoveOwned(socket: Socket, j: nat)
    requires socket.Valid() && FdsOwned(socket.View()) && j < socket.peerCount
    modifies socket, socket.peers
    ensures socket.Valid() && socket.View() == RemoveAt(old(socket.View()), j)
  {
    assert socket.View().peers[j] == socket.peers[j];
    if socket.peers[j].fd != 0 {
      LiveFdIsOpen(socket.View(), j);
    }
    socket.RemovePeer(j);
  }

  method HandleMessageUdp(socket: Socket, from: Remote, msg: string, now: int) returns (crash: bool)
    requires socket.Valid() && FdsOwned(socket.View())
    modifies socket, socket.peers
    ensures socket.Valid()
    ensures crash <==> !HandleUdp(old(socket.View()), from, msg, now).Done?
    ensures !crash ==> HandleUdp(old(socket.View()), from, msg, now) == Done(socket.View())
  {
    if msg == QUIT_MSG {
      var leaving := FindPeerByRemote(socket, from);
      if leaving.None? {
        return true;
      }
      RemoveOwned(socket, leaving.value);
      return false;
    }
    if msg == KEEP_ALIVE_MSG {
      SendSocketUdpToRemote(socket, KEEP_ALIVE_ACK_MSG, from);
    }
    var found := FindPeerByRemote(socket, from);
    if found.None? {
      HandleCommUpUdp(socket, from, now);
      return false;
    }
    var p := socket.peers[found.value];
    if p.ping.None? || p.commLost.None? {
      return true;
    }
    socket.tasks := ResetAt(socket.tasks, p.ping.value, now);
    socket.tasks := ResetAt(socket.tasks, p.commLost.value, now);
    return false;
  }

  // ---------------------------------------------------------------- events

  datatype Event =
    | Start(remotes: seq<Remote>)
    | Fire(i: nat)
    | Receive(from: Remote, msg: string)
    | Say(msg: string)

  /** The scheduler fires only due, enabled tasks; no message comes from port 0. */
  predicate Guard(s: State, e: Event, now: int) {
    match e
    case Start(remotes) => forall r :: r in remotes ==> r.port != 0
    case Fire(i) => i < |s.tasks| && s.tasks[i].Enabled() && s.tasks[i].due <= now
    case Receive(from, msg) => from.port != 0
    case Say(msg) => true
  }

  function FireUdp(s: State, i: nat, rearm: Rearm, now: int): Outcome
    requires i < |s.tasks|
  {
    var t := s.tasks[i];
    var s1 := s.(tasks := s.tasks[i := Fired(t, rearm, now)]);
    match t.kind
    case Ping => Done(SendTo(s1, t.remote, KEEP_ALIVE_MSG))
    case CommLost => CommLostUdp(s1, t.remote, now)
    case Reestablish => Done(ConnectUdp(s1, [t.remote], now))
  }

  function Step(s: State, e: Event, rearm: Rearm, now: int): Outcome
    requires Guard(s, e, now)
  {
    match e
    case Start(remotes) => Done(ConnectUdp(s, remotes, now))
    case Fire(i) => FireUdp(s, i, rearm, now)
    case Receive(from, msg) => HandleUdp(s, from, msg, now)
    case Say(msg) => Done(SendAll(s, msg))
  }

  datatype Timed = At(now: int, event: Event)

  /** Every event meets its guard and none crashes. */
  predicate Runs(s: State, evs: seq<Timed>, rearm: Rearm)
    decreases |evs|
  {
    evs != [] ==>
      && Guard(s, evs[0].event, evs[0].now)
      && Step(s, evs[0].event, rearm, evs[0].now).Done?
      && Runs(Step(s, evs[0].event, rearm, evs[0].now).state, evs[1..], rearm)
  }

  function After(s: State, evs: seq<Timed>, rearm: Rearm): State
    requires Runs(s, evs, rearm)
    decreases |evs|
  {
    if evs == [] then s
    else After(Step(s, evs[0].event, rearm, evs[0].now).state, evs[1..], rearm)
  }

  predicate UdpLive(p: Peer) {
    p.remote.port != 0
  }
}
