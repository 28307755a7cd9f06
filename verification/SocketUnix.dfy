/** Datagram peers on Unix sockets, keyed by path. */
module SocketUnix {
  import opened Sockets

  function FindPath(s: State, path: string): (r: Option<nat>)
    ensures r.Some? ==> r.value < |s.peers| && s.peers[r.value].path == path
    ensures r.None? ==> forall j :: 0 <= j < |s.peers| ==> s.peers[j].path != path
  {
    var r := Find(ByPath, s.peers, PathKey(path));
    assert forall j :: 0 <= j < |s.peers| ==> KeyOf(ByPath, s.peers[j]) == PathKey(s.peers[j].path);
    r
  }

  function CommUpUnix(s: State, path: string): State {
    if Full(s) then s else s.(peers := s.peers + [BLANK.(path := path)])
  }

  function ConnectUnix(s: State, paths: seq<string>): State
    decreases |paths|
  {
    if paths == [] then s else ConnectUnix(CommUpUnix(s, paths[0]), paths[1..])
  }

  /** A goodbye removes the sender; any other message from an unknown path adds it. */
  function HandleUnix(s: State, path: string, msg: string): Outcome {
    if msg == QUIT_MSG then RemoveFound(s, FindPath(s, path))
    else if FindPath(s, path).Some? then Done(s)
    else Done(CommUpUnix(s, path))
  }

  method HandleCommUpUnix(socket: Socket, path: string)
    requires socket.Valid()
    modifies socket, socket.peers
    ensures socket.Valid() && socket.View() == CommUpUnix(old(socket.View()), path)
  {
    if socket.peerCount >= PEERS_MAX_COUNT {
      return;
    }
    ghost var before := socket.View();
    var i := socket.peerCount;
    socket.peerCount := socket.peerCount + 1;
    socket.peers[i] := socket.peers[i].(path := path);
    assert socket.View().peers == CommUpUnix(before, path).peers;
  }

  method ConnectSocketUnix(socket: Socket, paths: seq<string>)
    requires socket.Valid()
    modifies socket, socket.peers
    ensures socket.Valid() && socket.View() == ConnectUnix(old(socket.View()), paths)
  {
    var i := 0;
    while i < |paths|
      invariant i <= |paths| && socket.Valid()
      invariant ConnectUnix(socket.View(), paths[i..]) == ConnectUnix(old(socket.View()), paths)
    {
      assert paths[i..][1..] == paths[i + 1..];
      HandleCommUpUnix(socket, paths[i]);
      i := i + 1;
    }
  }

  method HandleMessageUnix(socket: Socket, path: string, msg: string) returns (crash: bool)
    requires socket.Valid() && FdsOwned(socket.View())
    modifies socket, socket.peers
    ensures socket.Valid()
    ensures crash <==> HandleUnix(old(socket.View()), path, msg).NullPeer?
    ensures !crash ==> HandleUnix(old(socket.View()), path, msg) == Done(socket.View())
  {
    var found := socket.FindPeer(ByPath, PathKey(path));
    if msg == QUIT_MSG {
      if found.None? {
        return true;
      }
      assert socket.View().peers[found.value] == socket.peers[found.value];
      if socket.peers[found.value].fd != 0 {
        LiveFdIsOpen(socket.View(), found.value);
      }
      socket.RemovePeer(found.value);
      return false;
    }
    if found.None? {
      HandleCommUpUnix(socket, path);
    }
    return false;
  }

  // ---------------------------------------------------------------- runs

  /** The paths of all slots; a slot given up has the empty one. */
  function Paths(peers: seq<Peer>): (r: seq<string>)
    ensures |r| == |peers|
  {
    seq(|peers|, j requires 0 <= j < |peers| => peers[j].path)
  }

  /** Messages received, in order: who from, and what. */
  datatype Message = Message(path: string, msg: string)

  function Run(s: State, ms: seq<Message>): Outcome
    decreases |ms|
  {
    if ms == [] then Done(s)
    else
      var o := HandleUnix(s, ms[0].path, ms[0].msg);
      if o.Done? then Run(o.state, ms[1..]) else o
  }

  /** The senders in touch, with how many slots each has; the empty path counts the slots given up. A message brings
      a sender in while there is a slot left; a goodbye takes one slot of it out. */
  function Follow(t: multiset<string>, m: Message): multiset<string> {
    if m.msg == "q" then t - multiset{m.path} + multiset{""}
    else if m.path in t then t
    else Arrive(t, m.path)
  }

  function Arrive(t: multiset<string>, path: string): multiset<string> {
    if |t| >= PEERS_MAX_COUNT then t else t + multiset{path}
  }

  function FollowAll(t: multiset<string>, ms: seq<Message>): multiset<string>
    decreases |ms|
  {
    if ms == [] then t else FollowAll(Follow(t, ms[0]), ms[1..])
  }

  function ArriveAll(t: multiset<string>, paths: seq<string>): multiset<string>
    decreases |paths|
  {
    if paths == [] then t else ArriveAll(Arrive(t, paths[0]), paths[1..])
  }

  /** No goodbye comes from a sender that is not in touch. */
  predicate Courteous(t: multiset<string>, ms: seq<Message>)
    decreases |ms|
  {
    ms != [] ==> (ms[0].msg == "q" ==> ms[0].path in t) && Courteous(Follow(t, ms[0]), ms[1..])
  }

  function InTouch(s: State): multiset<string> {
    multiset(Paths(s.peers))
  }

  lemma PathIsFound(s: State, path: string)
    ensures FindPath(s, path).Some? <==> path in InTouch(s)
  {
    if FindPath(s, path).Some? {
      assert Paths(s.peers)[FindPath(s, path).value] == path;
    }
  }

  lemma CommUpArrives(s: State, path: string)
    ensures InTouch(CommUpUnix(s, path)) == Arrive(InTouch(s), path)
  {
    if !Full(s) {
      assert Paths(CommUpUnix(s, path).peers) == Paths(s.peers) + [path];
    }
  }

  /** connectSocketUnix does not look its paths up: each gets a slot, duplicates too, while there is one. */
  lemma {:induction false} ConnectArrives(s: State, paths: seq<string>)
    ensures InTouch(ConnectUnix(s, paths)) == ArriveAll(InTouch(s), paths)
    decreases |paths|
  {
    if paths != [] {
      CommUpArrives(s, paths[0]);
      ConnectArrives(CommUpUnix(s, paths[0]), paths[1..]);
    }
  }

  lemma MessageFollows(s: State, m: Message)
    ensures HandleUnix(s, m.path, m.msg).Done? <==> (m.msg == QUIT_MSG ==> m.path in InTouch(s))
    ensures HandleUnix(s, m.path, m.msg).Done? ==> InTouch(HandleUnix(s, m.path, m.msg).state) == Follow(InTouch(s), m)
  {
    var found := FindPath(s, m.path);
    PathIsFound(s, m.path);
    if m.msg == QUIT_MSG && found.Some? {
      assert Paths(RemoveAt(s, found.value).peers) == Paths(s.peers)[found.value := ""];
    } else if m.msg != QUIT_MSG && found.None? {
      CommUpArrives(s, m.path);
    }
  }

  /** From any state and over any messages, duplicate and empty paths included, the socket crashes if and only if a
      goodbye comes from a sender out of touch; otherwise the paths of its slots are those in touch. */
  lemma {:induction false} PathsAreTracked(s: State, ms: seq<Message>)
    ensures Run(s, ms).Done? <==> Courteous(InTouch(s), ms)
    ensures Run(s, ms).Done? ==> InTouch(Run(s, ms).state) == FollowAll(InTouch(s), ms)
    decreases |ms|
  {
    if ms != [] {
      MessageFollows(s, ms[0]);
      var o := HandleUnix(s, ms[0].path, ms[0].msg);
      if o.Done? {
        PathsAreTracked(o.state, ms[1..]);
      }
    }
  }

  /** A socket that connects and then receives, from the beginning. */
  lemma {:induction false} UnixSocketIsTracked(fd: int, paths: seq<string>, ms: seq<Message>)
    ensures var s, t := ConnectUnix(Initial(Unix, fd), paths), ArriveAll(multiset{}, paths);
            && (Run(s, ms).Done? <==> Courteous(t, ms))
            && (Run(s, ms).Done? ==> InTouch(Run(s, ms).state) == FollowAll(t, ms))
  {
    assert Paths([]) == [];
    ConnectArrives(Initial(Unix, fd), paths);
    PathsAreTracked(ConnectUnix(Initial(Unix, fd), paths), ms);
  }
}
