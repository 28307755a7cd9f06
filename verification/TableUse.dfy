/** Each protocol's handlers act on the slots as on a map under the protocol's own key. */
module TableUse {
  import opened Sockets
  import opened PeerTable
  import opened SocketUdp
  import opened SocketTcp
  import opened SocketSctp
  import opened SocketUnix
  import opened SocketCleanUp

  /** Add a key that is absent, if there is room. */
  function Added(b: Book, k: Key): Book {
    if b.used >= PEERS_MAX_COUNT then b else Book(b.slot[k := b.used], b.used + 1)
  }

  function AddedAll(b: Book, ks: seq<Key>): Book
    decreases |ks|
  {
    if ks == [] then b else AddedAll(Added(b, ks[0]), ks[1..])
  }

  function Removed(b: Book, k: Key): Book {
    b.(slot := b.slot - {k})
  }

  /** As far as there is room for them, the keys are live, distinct and not yet in the map. */
  predicate New(b: Book, ks: seq<Key>) {
    && (forall i :: 0 <= i < |ks| && b.used + i < PEERS_MAX_COUNT ==> !Dead(ks[i]) && ks[i] !in b.slot)
    && (forall i, j :: 0 <= i < j < |ks| && b.used + j < PEERS_MAX_COUNT ==> ks[i] != ks[j])
  }

  lemma NewNext(b: Book, ks: seq<Key>)
    requires ks != [] && b.used < PEERS_MAX_COUNT && New(b, ks)
    ensures New(Added(b, ks[0]), ks[1..])
  {
  }

  function RemoteKeys(remotes: seq<Remote>): (r: seq<Key>)
    ensures |r| == |remotes|
  {
    seq(|remotes|, i requires 0 <= i < |remotes| => RemoteKey(remotes[i]))
  }

  function FdKeys(fds: seq<int>): (r: seq<Key>)
    ensures |r| == |fds|
  {
    seq(|fds|, i requires 0 <= i < |fds| => FdKey(fds[i]))
  }

  function PathKeys(paths: seq<string>): (r: seq<Key>)
    ensures |r| == |paths|
  {
    seq(|paths|, i requires 0 <= i < |paths| => PathKey(paths[i]))
  }

  // ---------------------------------------------------------------- connecting

  lemma {:induction false} FullBookStays(b: Book, ks: seq<Key>)
    requires b.used >= PEERS_MAX_COUNT
    ensures AddedAll(b, ks) == b
    decreases |ks|
  {
    if ks != [] {
      FullBookStays(b, ks[1..]);
    }
  }

  lemma {:induction false} FullUdpStays(s: State, remotes: seq<Remote>, now: int)
    requires Full(s)
    ensures ConnectUdp(s, remotes, now) == s
    decreases |remotes|
  {
    if remotes != [] {
      FullUdpStays(s, remotes[1..], now);
    }
  }

  lemma {:induction false} FullUnixStays(s: State, paths: seq<string>)
    requires Full(s)
    ensures ConnectUnix(s, paths) == s
    decreases |paths|
  {
    if paths != [] {
      FullUnixStays(s, paths[1..]);
    }
  }

  /** A UDP start adds its remotes in order, as far as there is room. */
  lemma {:induction false} UdpConnectActsOnMap(s: State, remotes: seq<Remote>, now: int, b: Book)
    requires Represents(ByRemote, s.peers, b) && New(b, RemoteKeys(remotes))
    ensures Represents(ByRemote, ConnectUdp(s, remotes, now).peers, AddedAll(b, RemoteKeys(remotes)))
    decreases |remotes|
  {
    if Full(s) {
      FullBookStays(b, RemoteKeys(remotes));
      FullUdpStays(s, remotes, now);
    } else if remotes != [] {
      var k, h := RemoteKey(remotes[0]), |s.tasks|;
      assert RemoteKeys(remotes)[0] == k && RemoteKeys(remotes)[1..] == RemoteKeys(remotes[1..]);
      StepRefines(ByRemote, Slots(s.protocol, s.peers), b, Add(BLANK.(remote := remotes[0], ping := Some(h), commLost := Some(h + 1))));
      NewNext(b, RemoteKeys(remotes));
      UdpConnectActsOnMap(CommUpUdp(s, remotes[0], now), remotes[1..], now, Added(b, k));
    }
  }

  /** A TCP or DCCP start, or a reconnect, adds the descriptors that the kernel opens for it. */
  lemma {:induction false} TcpConnectActsOnMap(s: State, remotes: seq<Remote>, fds: seq<int>, b: Book)
    requires Represents(ByFd, s.peers, b) && |fds| == |remotes| && New(b, FdKeys(fds))
    ensures Represents(ByFd, ConnectTcp(s, remotes, fds).peers, AddedAll(b, FdKeys(fds)))
    decreases |remotes|
  {
    if Full(s) {
      FullBookStays(b, FdKeys(fds));
    } else if remotes != [] {
      var k := FdKey(fds[0]);
      assert FdKeys(fds)[0] == k && FdKeys(fds)[1..] == FdKeys(fds[1..]);
      StepRefines(ByFd, Slots(s.protocol, s.peers), b, Add(BLANK.(fd := fds[0], remote := remotes[0], shouldReestablish := true)));
      NewNext(b, FdKeys(fds));
      TcpConnectActsOnMap(Fill(s, fds[0], remotes[0], true), remotes[1..], fds[1..], Added(b, k));
    }
  }

  /** A Unix start adds its paths. */
  lemma {:induction false} UnixConnectActsOnMap(s: State, paths: seq<string>, b: Book)
    requires Represents(ByPath, s.peers, b) && New(b, PathKeys(paths))
    ensures Represents(ByPath, ConnectUnix(s, paths).peers, AddedAll(b, PathKeys(paths)))
    decreases |paths|
  {
    if Full(s) {
      FullBookStays(b, PathKeys(paths));
      FullUnixStays(s, paths);
    } else if paths != [] {
      var k := PathKey(paths[0]);
      assert PathKeys(paths)[0] == k && PathKeys(paths)[1..] == PathKeys(paths[1..]);
      StepRefines(ByPath, Slots(s.protocol, s.peers), b, Add(BLANK.(path := paths[0])));
      NewNext(b, PathKeys(paths));
      UnixConnectActsOnMap(CommUpUnix(s, paths[0]), paths[1..], Added(b, k));
    }
  }

  // ---------------------------------------------------------------- handling

  /** A datagram adds an unknown sender, and a goodbye removes the sender. */
  lemma UdpMessageActsOnMap(s: State, from: Remote, msg: string, now: int, b: Book)
    requires Represents(ByRemote, s.peers, b) && from.port != 0 && HandleUdp(s, from, msg, now).Done?
    ensures var k := RemoteKey(from);
            Represents(ByRemote, HandleUdp(s, from, msg, now).state.peers,
                       if msg == "q" then Removed(b, k) else if k in b.slot then b else Added(b, k))
  {
    var k, h := RemoteKey(from), |s.tasks|;
    if msg == "q" {
      StepRefines(ByRemote, Slots(s.protocol, s.peers), b, Remove(k));
    } else if FindRemote(s, from).None? {
      StepRefines(ByRemote, Slots(s.protocol, s.peers), b,
                  Add(BLANK.(remote := from, ping := Some(h), commLost := Some(h + 1))));
    }
  }

  lemma UdpCommLostActsOnMap(s: State, remote: Remote, now: int, b: Book)
    requires Represents(ByRemote, s.peers, b) && remote.port != 0 && CommLostUdp(s, remote, now).Done?
    ensures Represents(ByRemote, CommLostUdp(s, remote, now).state.peers, Removed(b, RemoteKey(remote)))
  {
    StepRefines(ByRemote, Slots(s.protocol, s.peers), b, Remove(RemoteKey(remote)));
  }

  /** The listening descriptor adds the accepted one; an end of either kind removes its descriptor. */
  lemma TcpMessageActsOnMap(s: State, fd: int, x: Stimulus, now: int, b: Book)
    requires Represents(ByFd, s.peers, b) && FdsOwned(s) && fd != 0 && Fits(s, fd, x) && Handle(s, fd, x, now).Done?
    ensures Represents(ByFd, Handle(s, fd, x, now).state.peers,
                       if fd == s.fd then Added(b, FdKey(x.fd))
                       else if x.Failed? || x.text == "" || (s.protocol != TCP && x.text == "q") then Removed(b, FdKey(fd))
                       else b)
  {
    if fd == s.fd {
      assert forall j :: 0 <= j < |s.peers| && s.peers[j].fd != 0 ==> s.peers[j].fd in LiveFds(s.peers);
      StepRefines(ByFd, Slots(s.protocol, s.peers), b, Add(BLANK.(fd := x.fd, remote := x.remote)));
    } else {
      StepRefines(ByFd, Slots(s.protocol, s.peers), b, Remove(FdKey(fd)));
    }
  }

  lemma SctpUpActsOnMap(s: State, a: int, fd: int, b: Book)
    requires Represents(ByAssoc, s.peers, b) && a != 0 && AssocKey(a) !in b.slot
    ensures Represents(ByAssoc, PeelOff(s, a, fd).peers, Added(b, AssocKey(a)))
  {
    StepRefines(ByAssoc, Slots(s.protocol, s.peers), b, Add(BLANK.(assocId := a, fd := fd)));
  }

  lemma SctpDownActsOnMap(s: State, a: int, b: Book)
    requires Represents(ByAssoc, s.peers, b) && a != 0 && RemoveAssoc(s, a).Done?
    ensures Represents(ByAssoc, RemoveAssoc(s, a).state.peers, Removed(b, AssocKey(a)))
  {
    StepRefines(ByAssoc, Slots(s.protocol, s.peers), b, Remove(AssocKey(a)));
  }

  lemma UnixMessageActsOnMap(s: State, path: string, msg: string, b: Book)
    requires Represents(ByPath, s.peers, b) && path != "" && HandleUnix(s, path, msg).Done?
    ensures var k := PathKey(path);
            Represents(ByPath, HandleUnix(s, path, msg).state.peers,
                       if msg == "q" then Removed(b, k) else if k in b.slot then b else Added(b, k))
  {
    if msg == "q" {
      StepRefines(ByPath, Slots(s.protocol, s.peers), b, Remove(PathKey(path)));
    } else if FindPath(s, path).None? {
      StepRefines(ByPath, Slots(s.protocol, s.peers), b, Add(BLANK.(path := path)));
    }
  }

  // ---------------------------------------------------------------- sending

  /** What makes a slot worth sending to, protocol by protocol, and where a message for it goes. */
  predicate Reachable(protocol: Protocol, p: Peer) {
    match protocol
    case TCP => p.fd != 0
    case DCCP => p.fd != 0
    case SCTP => p.fd != 0
    case UDP => p.remote.port != 0
    case UDP_Lite => p.remote.port != 0
    case Unix => p.path != ""
    case UnixForked => false
  }

  predicate IsFor(protocol: Protocol, p: Peer, k: Key) {
    match protocol
    case TCP => k == FdKey(p.fd)
    case DCCP => k == FdKey(p.fd)
    case SCTP => k == FdKey(p.fd)
    case UDP => k == RemoteKey(p.remote)
    case UDP_Lite => k == RemoteKey(p.remote)
    case Unix => k == PathKey(p.path)
    case UnixForked => false
  }

  /** These messages are the text, once for each reachable slot and in slot order: at[i] is the slot of the i-th. */
  ghost predicate ToldInOrder(protocol: Protocol, peers: seq<Peer>, out: seq<Sent>, msg: string, at: seq<nat>) {
    && |at| == |out|
    && (forall i :: 0 <= i < |at| ==>
          at[i] < |peers| && Reachable(protocol, peers[at[i]]) && IsFor(protocol, peers[at[i]], out[i].target) && out[i].msg == msg)
    && (forall i, j :: 0 <= i < j < |at| ==> at[i] < at[j])
    && (forall j :: 0 <= j < |peers| && Reachable(protocol, peers[j]) ==> j in at)
  }

  lemma OneMorePeer(protocol: Protocol, peers: seq<Peer>, p: Peer, out: seq<Sent>, msg: string, at: seq<nat>, k: Key)
    requires ToldInOrder(protocol, peers, out, msg, at)
    requires Reachable(protocol, p) ==> IsFor(protocol, p, k)
    ensures if Reachable(protocol, p) then ToldInOrder(protocol, peers + [p], out + [Sent(k, msg)], msg, at + [|peers|])
            else ToldInOrder(protocol, peers + [p], out, msg, at)
  {
    var all := peers + [p];
    assert forall j :: 0 <= j < |peers| ==> all[j] == peers[j];
    if Reachable(protocol, p) {
      var told := at + [|peers|];
      assert told[|at|] == |peers|;
      assert forall j :: j in at ==> j in told;
    }
  }

  lemma SendKindReaches(protocol: Protocol, p: Peer)
    requires protocol != UnixForked
    ensures IsFor(protocol, p, KeyOf(SendKind(protocol), p))
    ensures Dead(KeyOf(SendKind(protocol), p)) <==> !Reachable(protocol, p)
  {
  }

  lemma TargetsGrow(how: KeyKind, front: seq<Peer>, p: Peer, msg: string)
    ensures var out, k := Addressed(Targets(how, front), msg), KeyOf(how, p);
            Addressed(Targets(how, front + [p]), msg) == if Dead(k) then out else out + [Sent(k, msg)]
  {
    assert (front + [p])[..|front|] == front;
    assert Targets(how, front + [p]) == Targets(how, front) + if Dead(KeyOf(how, p)) then [] else [KeyOf(how, p)];
  }

  lemma {:induction false} TargetsInOrder(protocol: Protocol, peers: seq<Peer>, msg: string) returns (at: seq<nat>)
    requires protocol != UnixForked
    ensures ToldInOrder(protocol, peers, Addressed(Targets(SendKind(protocol), peers), msg), msg, at)
  {
    var how := SendKind(protocol);
    if peers == [] {
      at := [];
    } else {
      var front, p := peers[..|peers| - 1], peers[|peers| - 1];
      var before := TargetsInOrder(protocol, front, msg);
      SendKindReaches(protocol, p);
      OneMorePeer(protocol, front, p, Addressed(Targets(how, front), msg), msg, before, KeyOf(how, p));
      TargetsGrow(how, front, p, msg);
      assert peers == front + [p];
      at := if Dead(KeyOf(how, p)) then before else before + [|front|];
    }
  }

  /** In every protocol, whatever is in the table, a send adds to the log one copy of the message for each peer that can
      be reached, in slot order, and changes nothing else. */
  lemma SendGoesToEachPeer(s: State, msg: string) returns (at: seq<nat>)
    requires s.protocol != UnixForked
    ensures var s' := SendAll(s, msg);
            s' == s.(sent := s'.sent) && s.sent <= s'.sent && ToldInOrder(s.protocol, s.peers, s'.sent[|s.sent|..], msg, at)
  {
    at := TargetsInOrder(s.protocol, s.peers, msg);
    assert SendAll(s, msg).sent[|s.sent|..] == Addressed(Targets(SendKind(s.protocol), s.peers), msg);
  }

  /** One message for each live key, and nothing else. */
  ghost predicate EachToldOnce(out: seq<Sent>, msg: string, b: Book) {
    && (forall i :: 0 <= i < |out| ==> out[i].msg == msg)
    && multiset(seq(|out|, i requires 0 <= i < |out| => out[i].target)) == multiset(b.slot.Keys)
  }

  /** If the slots are a map under the key that the protocol sends to, each key of the map is told once: the descriptor on
      TCP, DCCP and SCTP, the remote on UDP, the path on Unix. */
  lemma SendReachesEachOnce(s: State, how: KeyKind, msg: string, b: Book)
    requires Represents(how, s.peers, b)
    requires || (how == ByFd && s.protocol in {TCP, DCCP, SCTP})
             || (how == ByRemote && s.protocol in {UDP, UDP_Lite})
             || (how == ByPath && s.protocol == Unix)
    ensures var s' := SendAll(s, msg);
            s' == s.(sent := s'.sent) && s.sent <= s'.sent && EachToldOnce(s'.sent[|s.sent|..], msg, b)
  {
    var out := SendAll(s, msg).sent[|s.sent|..];
    EachLiveKeyOnce(how, s.peers, b);
    assert out == Addressed(Targets(how, s.peers), msg);
    assert seq(|out|, i requires 0 <= i < |out| => out[i].target) == Targets(how, s.peers);
  }

  /** Before it closes, a DCCP, UDP or Unix socket says "q" to each peer that can be reached, in slot order; the others say
      nothing. Afterwards nothing is open and no slot has a descriptor. */
  lemma CleanUpSaysGoodbye(s: State) returns (at: seq<nat>)
    requires s.protocol != UnixForked && FdsOwned(s)
    ensures var s' := CleanUp(s);
            && s'.open == {} && s'.fd == 0 && |s'.peers| == |s.peers|
            && (forall j :: 0 <= j < |s.peers| ==> s'.peers[j] == s.peers[j].(fd := 0))
            && s.sent <= s'.sent
            && if s.protocol in {DCCP, UDP, UDP_Lite, Unix} then ToldInOrder(s.protocol, s.peers, s'.sent[|s.sent|..], "q", at)
               else s'.sent == s.sent
  {
    at := SendGoesToEachPeer(s, "q");
  }

  /** What a run's map says of the messages and goodbyes of the socket that ends the run. */
  ghost predicate MapIsTold(s: State, b: Book) {
    && (forall msg :: s.sent <= SendAll(s, msg).sent && EachToldOnce(SendAll(s, msg).sent[|s.sent|..], msg, b))
    && s.sent <= CleanUp(s).sent
    && if s.protocol in {DCCP, UDP, UDP_Lite, Unix} then EachToldOnce(CleanUp(s).sent[|s.sent|..], "q", b)
       else CleanUp(s).sent == s.sent
  }

  lemma MapOfRunIsTold(s: State, how: KeyKind, b: Book)
    requires Represents(how, s.peers, b)
    requires || (how == ByFd && s.protocol in {TCP, DCCP, SCTP})
             || (how == ByRemote && s.protocol in {UDP, UDP_Lite})
             || (how == ByPath && s.protocol == Unix)
    ensures MapIsTold(s, b)
  {
    forall msg
      ensures s.sent <= SendAll(s, msg).sent && EachToldOnce(SendAll(s, msg).sent[|s.sent|..], msg, b)
    {
      SendReachesEachOnce(s, how, msg, b);
    }
  }

  // ---------------------------------------------------------------- room

  /** Ten slots in all, on each protocol: of the connects of a start as many as are left get one. */
  lemma {:induction false} UdpHasTenSlots(s: State, remotes: seq<Remote>, now: int)
    requires |s.peers| <= 10
    ensures |ConnectUdp(s, remotes, now).peers| == if |s.peers| + |remotes| < 10 then |s.peers| + |remotes| else 10
    decreases |remotes|
  {
    if remotes != [] {
      UdpHasTenSlots(CommUpUdp(s, remotes[0], now), remotes[1..], now);
    }
  }

  lemma {:induction false} TcpHasTenSlots(s: State, remotes: seq<Remote>, fds: seq<int>)
    requires |s.peers| <= 10 && |fds| == |remotes|
    ensures |ConnectTcp(s, remotes, fds).peers| == if |s.peers| + |remotes| < 10 then |s.peers| + |remotes| else 10
    decreases |remotes|
  {
    if remotes != [] && !Full(s) {
      TcpHasTenSlots(Fill(s, fds[0], remotes[0], true), remotes[1..], fds[1..]);
    }
  }

  lemma {:induction false} UnixHasTenSlots(s: State, paths: seq<string>)
    requires |s.peers| <= 10
    ensures |ConnectUnix(s, paths).peers| == if |s.peers| + |paths| < 10 then |s.peers| + |paths| else 10
    decreases |paths|
  {
    if paths != [] {
      UnixHasTenSlots(CommUpUnix(s, paths[0]), paths[1..]);
    }
  }
}
