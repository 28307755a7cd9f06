/** Over whole runs the slots of every protocol are a map that the events alone determine. */
module TableRuns {
  import opened Sockets
  import opened PeerTable
  import opened TableUse
  import Udp = SocketUdp
  import UdpOwnership
  import UdpAccounts
  import Tcp = SocketTcp
  import TcpRuns
  import Sctp = SocketSctp
  import UnixSockets = SocketUnix

  const EMPTY_BOOK := Book(map[], 0)

  // ---------------------------------------------------------------- TCP and DCCP, by descriptor

  /** What an event does to the map, given the protocol and the main descriptor. */
  function TcpBook(protocol: Protocol, fd: int, b: Book, e: TcpRuns.Event): Book {
    match e
    case Connect(remotes, fds) => AddedAll(b, FdKeys(fds))
    case Reconnect(i, given) => AddedAll(b, FdKeys([given]))
    case Say(msg) => b
    case Ready(ready, x) =>
      if ready == fd then (if x.Incoming? then Added(b, FdKey(x.fd)) else b)
      else if x.Failed? || (x.Data? && (x.text == "" || (protocol != TCP && x.text == "q"))) then Removed(b, FdKey(ready))
      else b
  }

  function TcpBooks(protocol: Protocol, fd: int, b: Book, evs: seq<TcpRuns.Timed>): Book
    decreases |evs|
  {
    if evs == [] then b else TcpBooks(protocol, fd, TcpBook(protocol, fd, b, evs[0].event), evs[1..])
  }

  lemma {:induction false} FreshFdsAreNew(open: set<int>, fds: seq<int>)
    requires TcpRuns.Fresh(open, fds)
    ensures forall i :: 0 <= i < |fds| ==> fds[i] != 0 && fds[i] !in open
    ensures forall i, j :: 0 <= i < j < |fds| ==> fds[i] != fds[j]
    decreases |fds|
  {
    if fds != [] {
      FreshFdsAreNew(open + {fds[0]}, fds[1..]);
      assert forall i :: 0 < i < |fds| ==> fds[i] == fds[1..][i - 1];
    }
  }

  lemma FreshKeysAreNew(s: State, fds: seq<int>, b: Book)
    requires FdsOwned(s) && Represents(ByFd, s.peers, b) && TcpRuns.Fresh(s.open, fds)
    ensures New(b, FdKeys(fds))
  {
    FreshFdsAreNew(s.open, fds);
    forall i | 0 <= i < |fds|
      ensures FdKeys(fds)[i] !in b.slot
    {
      if FdKeys(fds)[i] in b.slot {
        LiveFdIsOpen(s, b.slot[FdKeys(fds)[i]]);
      }
    }
  }

  lemma {:induction false} ConnectKeepsProtocol(s: State, remotes: seq<Remote>, fds: seq<int>)
    requires |fds| == |remotes|
    ensures Tcp.ConnectTcp(s, remotes, fds).protocol == s.protocol && Tcp.ConnectTcp(s, remotes, fds).sent == s.sent
    decreases |remotes|
  {
    if remotes != [] && !Full(s) {
      ConnectKeepsProtocol(Tcp.Fill(s, fds[0], remotes[0], true), remotes[1..], fds[1..]);
    }
  }

  lemma TcpStepKeepsIdentity(s: State, e: TcpRuns.Event, now: int)
    requires TcpRuns.Guard(s, e) && TcpRuns.Step(s, e, now).Done?
    ensures TcpRuns.Step(s, e, now).state.fd == s.fd && TcpRuns.Step(s, e, now).state.protocol == s.protocol
  {
    match e {
      case Connect(remotes, fds) =>
        TcpRuns.ConnectKeepsMainFd(s, remotes, fds);
        ConnectKeepsProtocol(s, remotes, fds);
      case Reconnect(i, fd) =>
        var s1 := s.(tasks := s.tasks[i := Fired(s.tasks[i], FromDue, now)]);
        TcpRuns.ConnectKeepsMainFd(s1, [s.tasks[i].remote], [fd]);
        ConnectKeepsProtocol(s1, [s.tasks[i].remote], [fd]);
      case _ =>
    }
  }

  /** A TCP or DCCP socket that runs sends what its user says, to each peer in slot order, and nothing else. */
  lemma TcpSendsWhatIsSaid(s: State, e: TcpRuns.Event, now: int) returns (at: seq<nat>)
    requires TcpRuns.TcpInv(s) && TcpRuns.Guard(s, e)
    ensures TcpRuns.Step(s, e, now).Done?
    ensures var s' := TcpRuns.Step(s, e, now).state;
            if e.Say? then
              s' == s.(sent := s'.sent) && s.sent <= s'.sent && ToldInOrder(s.protocol, s.peers, s'.sent[|s.sent|..], e.msg, at)
            else s'.sent == s.sent
  {
    at := [];
    TcpRuns.StepKeepsInv(s, e, now);
    match e {
      case Connect(remotes, fds) => ConnectKeepsProtocol(s, remotes, fds);
      case Reconnect(i, fd) =>
        ConnectKeepsProtocol(s.(tasks := s.tasks[i := Fired(s.tasks[i], FromDue, now)]), [s.tasks[i].remote], [fd]);
      case Ready(fd, x) =>
      case Say(msg) => at := SendGoesToEachPeer(s, msg);
    }
  }

  lemma TcpStepActsOnMap(s: State, e: TcpRuns.Event, now: int, b: Book)
    requires TcpRuns.TcpInv(s) && TcpRuns.Guard(s, e) && Represents(ByFd, s.peers, b)
    ensures TcpRuns.Step(s, e, now).Done?
    ensures Represents(ByFd, TcpRuns.Step(s, e, now).state.peers, TcpBook(s.protocol, s.fd, b, e))
  {
    TcpRuns.StepKeepsInv(s, e, now);
    match e {
      case Connect(remotes, fds) =>
        FreshKeysAreNew(s, fds, b);
        TcpConnectActsOnMap(s, remotes, fds, b);
      case Reconnect(i, fd) =>
        FreshKeysAreNew(s, [fd], b);
        TcpConnectActsOnMap(s.(tasks := s.tasks[i := Fired(s.tasks[i], FromDue, now)]), [s.tasks[i].remote], [fd], b);
      case Say(msg) =>
      case Ready(fd, x) =>
        assert fd != 0 by {
          if fd != s.fd {
            TcpRuns.WatchedIsFound(s, fd);
          }
        }
        TcpMessageActsOnMap(s, fd, x, now, b);
    }
  }

  lemma {:induction false} TcpRunActsOnMap(s: State, evs: seq<TcpRuns.Timed>, b: Book)
    requires TcpRuns.TcpInv(s) && TcpRuns.Runs(s, evs) && Represents(ByFd, s.peers, b)
    ensures TcpRuns.After(s, evs).Done?
    ensures Represents(ByFd, TcpRuns.After(s, evs).state.peers, TcpBooks(s.protocol, s.fd, b, evs))
    decreases |evs|
  {
    if evs != [] {
      TcpRuns.StepKeepsInv(s, evs[0].event, evs[0].now);
      TcpStepActsOnMap(s, evs[0].event, evs[0].now, b);
      TcpStepKeepsIdentity(s, evs[0].event, evs[0].now);
      TcpRunActsOnMap(TcpRuns.Step(s, evs[0].event, evs[0].now).state, evs[1..], TcpBook(s.protocol, s.fd, b, evs[0].event));
    }
  }

  lemma {:induction false} TcpRunKeepsProtocol(s: State, evs: seq<TcpRuns.Timed>)
    requires TcpRuns.TcpInv(s) && TcpRuns.Runs(s, evs)
    ensures TcpRuns.After(s, evs).Done? && TcpRuns.After(s, evs).state.protocol == s.protocol
    decreases |evs|
  {
    if evs != [] {
      TcpRuns.StepKeepsInv(s, evs[0].event, evs[0].now);
      TcpStepKeepsIdentity(s, evs[0].event, evs[0].now);
      TcpRunKeepsProtocol(TcpRuns.Step(s, evs[0].event, evs[0].now).state, evs[1..]);
    }
  }

  /** Every TCP or DCCP run, connects and reconnects included, is a run of the map; and what is said then goes to each
      descriptor of the map once. */
  lemma TcpRefinesMap(protocol: Protocol, fd: int, evs: seq<TcpRuns.Timed>)
    requires (protocol == TCP || protocol == DCCP) && fd != 0 && TcpRuns.Runs(Initial(protocol, fd), evs)
    ensures TcpRuns.After(Initial(protocol, fd), evs).Done?
    ensures Represents(ByFd, TcpRuns.After(Initial(protocol, fd), evs).state.peers, TcpBooks(protocol, fd, EMPTY_BOOK, evs))
    ensures TcpRuns.After(Initial(protocol, fd), evs).state.protocol == protocol
    ensures MapIsTold(TcpRuns.After(Initial(protocol, fd), evs).state, TcpBooks(protocol, fd, EMPTY_BOOK, evs))
  {
    TcpRuns.InitialIsOk(protocol, fd);
    TcpRunActsOnMap(Initial(protocol, fd), evs, EMPTY_BOOK);
    TcpRunKeepsProtocol(Initial(protocol, fd), evs);
    MapOfRunIsTold(TcpRuns.After(Initial(protocol, fd), evs).state, ByFd, TcpBooks(protocol, fd, EMPTY_BOOK, evs));
  }

  // ---------------------------------------------------------------- UDP, by remote

  /** What an event does to the map; a firing does what its task is for. */
  function UdpBook(b: Book, tasks: seq<Task>, e: Udp.Event): Book {
    match e
    case Start(remotes) => AddedAll(b, RemoteKeys(remotes))
    case Say(msg) => b
    case Receive(from, msg) =>
      var k := RemoteKey(from);
      if msg == "q" then Removed(b, k) else if k in b.slot then b else Added(b, k)
    case Fire(i) =>
      if i >= |tasks| || tasks[i].kind == Ping then b
      else if tasks[i].kind == CommLost then Removed(b, RemoteKey(tasks[i].remote))
      else AddedAll(b, RemoteKeys([tasks[i].remote]))
  }

  /** As far as there is room, the event connects to no remote that has its slot, and to none twice. */
  predicate ConnectsAnew(b: Book, tasks: seq<Task>, e: Udp.Event) {
    match e
    case Start(remotes) => New(b, RemoteKeys(remotes))
    case Fire(i) => i < |tasks| && tasks[i].kind == Reestablish ==> New(b, RemoteKeys([tasks[i].remote]))
    case _ => true
  }

  predicate AlwaysConnectsAnew(b: Book, s: State, evs: seq<Udp.Timed>, rearm: Rearm)
    requires Udp.Runs(s, evs, rearm)
    decreases |evs|
  {
    evs != [] ==>
      && ConnectsAnew(b, s.tasks, evs[0].event)
      && AlwaysConnectsAnew(UdpBook(b, s.tasks, evs[0].event), Udp.Step(s, evs[0].event, rearm, evs[0].now).state, evs[1..], rearm)
  }

  function UdpBooks(b: Book, s: State, evs: seq<Udp.Timed>, rearm: Rearm): Book
    requires Udp.Runs(s, evs, rearm)
    decreases |evs|
  {
    if evs == [] then b
    else UdpBooks(UdpBook(b, s.tasks, evs[0].event), Udp.Step(s, evs[0].event, rearm, evs[0].now).state, evs[1..], rearm)
  }

  lemma UdpStepActsOnMap(s: State, e: Udp.Event, rearm: Rearm, now: int, b: Book)
    requires UdpOwnership.UdpInv(s) && Udp.Guard(s, e, now) && Udp.Step(s, e, rearm, now).Done?
    requires Represents(ByRemote, s.peers, b) && ConnectsAnew(b, s.tasks, e)
    ensures Represents(ByRemote, Udp.Step(s, e, rearm, now).state.peers, UdpBook(b, s.tasks, e))
  {
    match e {
      case Start(remotes) => UdpConnectActsOnMap(s, remotes, now, b);
      case Say(msg) =>
      case Receive(from, msg) => UdpMessageActsOnMap(s, from, msg, now, b);
      case Fire(i) =>
        var t := s.tasks[i];
        var s1 := s.(tasks := s.tasks[i := Fired(t, rearm, now)]);
        assert UdpOwnership.TaskOk(s, i);
        match t.kind {
          case Ping =>
          case CommLost => UdpCommLostActsOnMap(s1, t.remote, now, b);
          case Reestablish => UdpConnectActsOnMap(s1, [t.remote], now, b);
        }
    }
  }

  lemma {:induction false} UdpRunActsOnMap(s: State, evs: seq<Udp.Timed>, rearm: Rearm, b: Book)
    requires UdpOwnership.UdpInv(s) && Udp.Runs(s, evs, rearm) && Represents(ByRemote, s.peers, b)
    requires AlwaysConnectsAnew(b, s, evs, rearm)
    ensures Represents(ByRemote, Udp.After(s, evs, rearm).peers, UdpBooks(b, s, evs, rearm))
    decreases |evs|
  {
    if evs != [] {
      UdpOwnership.StepKeepsInv(s, evs[0].event, rearm, evs[0].now);
      UdpStepActsOnMap(s, evs[0].event, rearm, evs[0].now, b);
      UdpRunActsOnMap(Udp.Step(s, evs[0].event, rearm, evs[0].now).state, evs[1..], rearm, UdpBook(b, s.tasks, evs[0].event));
    }
  }

  /** Every UDP run that never connects to a remote that has its slot is a run of the map, and
      what is said then goes to each remote of the map once. */
  lemma UdpRefinesMap(protocol: Protocol, fd: int, evs: seq<Udp.Timed>, rearm: Rearm)
    requires IsUdp(protocol) && Udp.Runs(Initial(protocol, fd), evs, rearm)
    requires AlwaysConnectsAnew(EMPTY_BOOK, Initial(protocol, fd), evs, rearm)
    ensures Represents(ByRemote, Udp.After(Initial(protocol, fd), evs, rearm).peers,
                       UdpBooks(EMPTY_BOOK, Initial(protocol, fd), evs, rearm))
    ensures MapIsTold(Udp.After(Initial(protocol, fd), evs, rearm), UdpBooks(EMPTY_BOOK, Initial(protocol, fd), evs, rearm))
  {
    UdpOwnership.InitialIsOk(protocol, fd);
    UdpOwnership.RunsKeepInv(Initial(protocol, fd), evs, rearm);
    UdpRunActsOnMap(Initial(protocol, fd), evs, rearm, EMPTY_BOOK);
    MapOfRunIsTold(Udp.After(Initial(protocol, fd), evs, rearm), ByRemote, UdpBooks(EMPTY_BOOK, Initial(protocol, fd), evs, rearm));
  }

  // ---------------------------------------------------------------- SCTP, by association

  function SctpBook(b: Book, e: Sctp.Event): Book {
    if Sctp.IsUp(e) then Added(b, AssocKey(e.n.assocId))
    else if Sctp.IsDown(e) then Removed(b, AssocKey(e.n.assocId))
    else b
  }

  function SctpBooks(b: Book, evs: seq<Sctp.Timed>): Book
    decreases |evs|
  {
    if evs == [] then b else SctpBooks(SctpBook(b, evs[0].event), evs[1..])
  }

  lemma SctpStepActsOnMap(s: State, l: Sctp.Log, e: Sctp.Event, now: int, b: Book)
    requires Sctp.SctpInv(s, l) && Sctp.Guard(s, l, e) && Sctp.Step(s, e, now).Done? && Represents(ByAssoc, s.peers, b)
    ensures Represents(ByAssoc, Sctp.Step(s, e, now).state.peers, SctpBook(b, e))
  {
    if Sctp.IsUp(e) {
      Sctp.EveryAssocIsLive(s.peers);
      SctpUpActsOnMap(s, e.n.assocId, e.fd, b);
    } else if Sctp.IsDown(e) {
      SctpDownActsOnMap(s, e.n.assocId, b);
    }
  }

  lemma {:induction false} SctpRunActsOnMap(s: State, l: Sctp.Log, evs: seq<Sctp.Timed>, b: Book)
    requires Sctp.SctpInv(s, l) && Sctp.Runs(s, l, evs) && Represents(ByAssoc, s.peers, b)
    ensures Represents(ByAssoc, Sctp.After(s, l, evs).0.peers, SctpBooks(b, evs))
    ensures Sctp.SctpInv(Sctp.After(s, l, evs).0, Sctp.After(s, l, evs).1)
    decreases |evs|
  {
    if evs != [] {
      Sctp.StepKeepsInv(s, l, evs[0].event, evs[0].now);
      SctpStepActsOnMap(s, l, evs[0].event, evs[0].now, b);
      SctpRunActsOnMap(Sctp.Step(s, evs[0].event, evs[0].now).state, Sctp.Enter(l, evs[0].event), evs[1..],
                       SctpBook(b, evs[0].event));
    }
  }

  lemma SctpMapIsTold(s: State, l: Sctp.Log)
    requires Sctp.SctpInv(s, l)
    ensures Represents(ByFd, s.peers, BookOf(ByFd, s.peers)) && MapIsTold(s, BookOf(ByFd, s.peers))
  {
    assert KeysDistinct(ByFd, s.peers);
    SlotsAreMapExactly(ByFd, s.peers);
    MapOfRunIsTold(s, ByFd, BookOf(ByFd, s.peers));
  }

  /** Every SCTP run is a run of the map by association; and its slots are a map by descriptor too, so that what is said
      goes to the descriptor of each live association once. */
  lemma SctpRefinesMap(fd: int, evs: seq<Sctp.Timed>)
    requires fd != 0 && Sctp.Runs(Initial(SCTP, fd), Sctp.EMPTY_LOG, evs)
    ensures var s := Sctp.After(Initial(SCTP, fd), Sctp.EMPTY_LOG, evs).0;
            && Represents(ByAssoc, s.peers, SctpBooks(EMPTY_BOOK, evs))
            && Represents(ByFd, s.peers, BookOf(ByFd, s.peers)) && MapIsTold(s, BookOf(ByFd, s.peers))
  {
    Sctp.InitialIsOk(fd);
    SctpRunActsOnMap(Initial(SCTP, fd), Sctp.EMPTY_LOG, evs, EMPTY_BOOK);
    var (s, l) := Sctp.After(Initial(SCTP, fd), Sctp.EMPTY_LOG, evs);
    SctpMapIsTold(s, l);
  }

  // ---------------------------------------------------------------- Unix, by path

  function UnixBook(b: Book, m: UnixSockets.Message): Book {
    var k := PathKey(m.path);
    if m.msg == "q" then Removed(b, k) else if k in b.slot then b else Added(b, k)
  }

  function UnixBooks(b: Book, ms: seq<UnixSockets.Message>): Book
    decreases |ms|
  {
    if ms == [] then b else UnixBooks(UnixBook(b, ms[0]), ms[1..])
  }

  lemma {:induction false} UnixRunActsOnMap(s: State, ms: seq<UnixSockets.Message>, b: Book)
    requires Represents(ByPath, s.peers, b) && UnixSockets.Run(s, ms).Done?
    requires forall i :: 0 <= i < |ms| ==> ms[i].path != ""
    ensures Represents(ByPath, UnixSockets.Run(s, ms).state.peers, UnixBooks(b, ms))
    ensures UnixSockets.Run(s, ms).state.protocol == s.protocol
    decreases |ms|
  {
    if ms != [] {
      UnixMessageActsOnMap(s, ms[0].path, ms[0].msg, b);
      UnixRunActsOnMap(UnixSockets.HandleUnix(s, ms[0].path, ms[0].msg).state, ms[1..], UnixBook(b, ms[0]));
    }
  }

  lemma {:induction false} UnixConnectKeepsProtocol(s: State, paths: seq<string>)
    ensures UnixSockets.ConnectUnix(s, paths).protocol == s.protocol
    decreases |paths|
  {
    if paths != [] {
      UnixConnectKeepsProtocol(UnixSockets.CommUpUnix(s, paths[0]), paths[1..]);
    }
  }

  /** A Unix socket that connects to distinct paths and then receives is a run of the map, and what is said then goes to
      each path of the map once. */
  lemma {:induction false} UnixRefinesMap(fd: int, paths: seq<string>, ms: seq<UnixSockets.Message>)
    requires New(EMPTY_BOOK, PathKeys(paths)) && forall i :: 0 <= i < |ms| ==> ms[i].path != ""
    requires UnixSockets.Run(UnixSockets.ConnectUnix(Initial(Unix, fd), paths), ms).Done?
    ensures Represents(ByPath, UnixSockets.Run(UnixSockets.ConnectUnix(Initial(Unix, fd), paths), ms).state.peers,
                       UnixBooks(AddedAll(EMPTY_BOOK, PathKeys(paths)), ms))
    ensures MapIsTold(UnixSockets.Run(UnixSockets.ConnectUnix(Initial(Unix, fd), paths), ms).state,
                      UnixBooks(AddedAll(EMPTY_BOOK, PathKeys(paths)), ms))
  {
    UnixConnectKeepsProtocol(Initial(Unix, fd), paths);
    UnixConnectActsOnMap(Initial(Unix, fd), paths, EMPTY_BOOK);
    UnixRunActsOnMap(UnixSockets.ConnectUnix(Initial(Unix, fd), paths), ms, AddedAll(EMPTY_BOOK, PathKeys(paths)));
    MapOfRunIsTold(UnixSockets.Run(UnixSockets.ConnectUnix(Initial(Unix, fd), paths), ms).state, ByPath,
                   UnixBooks(AddedAll(EMPTY_BOOK, PathKeys(paths)), ms));
  }
}
