/** The socket shared by every protocol: ten append-only peer slots, the tasks
    scheduled for it, and the file descriptors it holds open.

    `State` is the value a `Socket` object stands for. Each protocol module gives
    its handlers twice: as a function on `State`, about which the properties are
    proved, and as a method on `Socket`, which is proved to compute that function. */
module Sockets {

  datatype Option<+T> = None | Some(value: T)

  const PEERS_MAX_COUNT: nat := 10
  const QUIT_MSG := "q"

  datatype Protocol = SCTP | TCP | UDP | UDP_Lite | DCCP | Unix | UnixForked

  predicate IsUdp(protocol: Protocol) {
    protocol == UDP || protocol == UDP_Lite
  }

  datatype Remote = Remote(addr: string, port: nat)

  /** The slot of one peer. A pointer to a task is the handle of that task. */
  datatype Peer = Peer(
    assocId: int,
    fd: int,
    remote: Remote,
    shouldReestablish: bool,
    ping: Option<nat>,
    commLost: Option<nat>,
    path: string)

  /** A slot that was never used: all bytes are zero. */
  const BLANK := Peer(0, 0, Remote("", 0), false, None, None, "")

  // ---------------------------------------------------------------- keys

  /** The four ways in which the protocols look a peer up. */
  datatype KeyKind = ByFd | ByAssoc | ByRemote | ByPath
  datatype Key = FdKey(fd: int) | AssocKey(assocId: int) | RemoteKey(remote: Remote) | PathKey(path: string)

  function KeyOf(how: KeyKind, p: Peer): Key {
    match how
    case ByFd => FdKey(p.fd)
    case ByAssoc => AssocKey(p.assocId)
    case ByRemote => RemoteKey(p.remote)
    case ByPath => PathKey(p.path)
  }

  /** The key values that a removed peer is left with. */
  predicate Dead(k: Key) {
    match k
    case FdKey(fd) => fd == 0
    case AssocKey(assocId) => assocId == 0
    case RemoteKey(remote) => remote.port == 0
    case PathKey(path) => path == ""
  }

  /** The first slot with the given key. */
  function Find(how: KeyKind, peers: seq<Peer>, k: Key): (r: Option<nat>)
    ensures r.Some? ==> r.value < |peers| && KeyOf(how, peers[r.value]) == k
    ensures r.Some? ==> forall j :: 0 <= j < r.value ==> KeyOf(how, peers[j]) != k
    ensures r.None? ==> forall j :: 0 <= j < |peers| ==> KeyOf(how, peers[j]) != k
  {
    FindFrom(how, peers, k, 0)
  }

  function FindFrom(how: KeyKind, peers: seq<Peer>, k: Key, i: nat): (r: Option<nat>)
    requires i <= |peers|
    ensures r.Some? ==> i <= r.value < |peers| && KeyOf(how, peers[r.value]) == k
    ensures r.Some? ==> forall j :: i <= j < r.value ==> KeyOf(how, peers[j]) != k
    ensures r.None? ==> forall j :: i <= j < |peers| ==> KeyOf(how, peers[j]) != k
    decreases |peers| - i
  {
    if i == |peers| then None
    else if KeyOf(how, peers[i]) == k then Some(i)
    else FindFrom(how, peers, k, i + 1)
  }

  // ---------------------------------------------------------------- tasks

  datatype TaskKind = Ping | CommLost | Reestablish

  const KEEP_ALIVE_PERIOD: nat := 1000
  const KEEP_ALIVE_PROBES: nat := 3
  const REESTABLISH_DELAY: nat := 5000

  /** A scheduled task; times are in milliseconds. */
  datatype Task = Task(
    kind: TaskKind,
    remote: Remote,
    delay: nat,
    repetitions: nat,
    left: nat,
    due: int,
    cancelled: bool)
  {
    predicate Enabled() { left > 0 && !cancelled }
  }

  function DelayOf(kind: TaskKind): nat {
    match kind
    case Ping => KEEP_ALIVE_PERIOD
    case CommLost => KEEP_ALIVE_PERIOD * (KEEP_ALIVE_PROBES + 1)
    case Reestablish => REESTABLISH_DELAY
  }

  function RepetitionsOf(kind: TaskKind): nat {
    if kind == Ping then KEEP_ALIVE_PROBES else 1
  }

  function NewTask(kind: TaskKind, remote: Remote, now: int): Task {
    Task(kind, remote, DelayOf(kind), RepetitionsOf(kind), RepetitionsOf(kind), now + DelayOf(kind), false)
  }

  /** A reconnect that was decided on at `now`: one attempt, 5000 later. */
  predicate IsReconnect(t: Task, remote: Remote, now: int) {
    t.kind == Reestablish && t.remote == remote && t.due == now + 5000 && t.left == 1 && !t.cancelled
  }

  function Reset(t: Task, now: int): Task {
    t.(left := t.repetitions, due := now + t.delay)
  }

  /** The scheduler either counts the next repetition from when the last was due, or from now. */
  datatype Rearm = FromDue | FromNow

  function Fired(t: Task, rearm: Rearm, now: int): Task {
    t.(left := if t.left > 0 then t.left - 1 else 0,
       due := (if rearm == FromDue then t.due else now) + t.delay)
  }

  function Cancel(tasks: seq<Task>, h: Option<nat>): (r: seq<Task>)
    ensures |r| == |tasks|
  {
    if h.Some? && h.value < |tasks| then tasks[h.value := tasks[h.value].(cancelled := true)] else tasks
  }

  // ---------------------------------------------------------------- the socket as a value

  /** A message handed to the kernel for one peer. */
  datatype Sent = Sent(target: Key, msg: string)

  /** `open` holds the descriptors the kernel has given this socket and not yet taken back;
      `sent` is everything sent so far. */
  datatype State = State(
    protocol: Protocol,
    fd: int,
    peers: seq<Peer>,
    tasks: seq<Task>,
    open: set<int>,
    sent: seq<Sent>)

  /** What a handler does: it completes, or follows a null peer or a null task. */
  datatype Outcome = Done(state: State) | NullPeer | NullTask

  function Initial(protocol: Protocol, fd: int): State {
    State(protocol, fd, [], [], if fd == 0 then {} else {fd}, [])
  }

  predicate Full(s: State) {
    |s.peers| >= PEERS_MAX_COUNT
  }

  function AddTask(s: State, kind: TaskKind, remote: Remote, now: int): State {
    s.(tasks := s.tasks + [NewTask(kind, remote, now)])
  }

  function Tombstone(protocol: Protocol, p: Peer): Peer {
    var q := p.(fd := 0, assocId := 0, remote := p.remote.(port := 0), path := "");
    if IsUdp(protocol) then q.(ping := None, commLost := None) else q
  }

  function CloseIn(open: set<int>, fd: int): set<int> {
    if fd == 0 then open else open - {fd}
  }

  function RemoveAt(s: State, j: nat): State
    requires j < |s.peers|
  {
    var p := s.peers[j];
    s.(peers := s.peers[j := Tombstone(s.protocol, p)],
       tasks := if IsUdp(s.protocol) then Cancel(Cancel(s.tasks, p.ping), p.commLost) else s.tasks,
       open := CloseIn(s.open, p.fd))
  }

  /** removePeer applied to the result of a lookup. */
  function RemoveFound(s: State, found: Option<nat>): Outcome
    requires found.Some? ==> found.value < |s.peers|
  {
    if found.None? then NullPeer else Done(RemoveAt(s, found.value))
  }

  /** The live keys in slot order: the targets of the send loops. */
  function Targets(how: KeyKind, peers: seq<Peer>): seq<Key> {
    if peers == [] then []
    else
      var k := KeyOf(how, peers[|peers| - 1]);
      Targets(how, peers[..|peers| - 1]) + if Dead(k) then [] else [k]
  }

  function Addressed(keys: seq<Key>, msg: string): (r: seq<Sent>)
    ensures |r| == |keys| && forall i :: 0 <= i < |r| ==> r[i] == Sent(keys[i], msg)
  {
    seq(|keys|, i requires 0 <= i < |keys| => Sent(keys[i], msg))
  }

  function SendKind(protocol: Protocol): KeyKind {
    if IsUdp(protocol) then ByRemote else if protocol == Unix then ByPath else ByFd
  }

  function SendAll(s: State, msg: string): State {
    s.(sent := s.sent + Addressed(Targets(SendKind(s.protocol), s.peers), msg))
  }

  function LiveFds(peers: seq<Peer>): set<int> {
    set j | 0 <= j < |peers| && peers[j].fd != 0 :: peers[j].fd
  }

  // ---------------------------------------------------------------- descriptor ownership

  /** The open descriptors are the main one and those of the live slots, all distinct. */
  ghost predicate FdsOwned(s: State) {
    && s.open == LiveFds(s.peers) + (if s.fd == 0 then {} else {s.fd})
    && (forall j :: 0 <= j < |s.peers| && s.peers[j].fd != 0 ==> s.peers[j].fd != s.fd)
    && (forall i, j :: 0 <= i < j < |s.peers| && s.peers[i].fd != 0 ==> s.peers[i].fd != s.peers[j].fd)
  }

  lemma LiveFdIsOpen(s: State, j: nat)
    requires FdsOwned(s) && j < |s.peers| && s.peers[j].fd != 0
    ensures s.peers[j].fd in s.open
  {
    assert s.peers[j].fd in LiveFds(s.peers);
  }

  /** Removing a peer closes its descriptor and no other. */
  lemma RemovalKeepsFdsOwned(s: State, j: nat)
    requires FdsOwned(s) && j < |s.peers|
    ensures FdsOwned(RemoveAt(s, j))
  {
    var s', f := RemoveAt(s, j), s.peers[j].fd;
    assert forall i :: 0 <= i < |s.peers| && i != j ==> s'.peers[i] == s.peers[i];
    assert LiveFds(s'.peers) == LiveFds(s.peers) - (if f == 0 then {} else {f}) by {
      forall g | g in LiveFds(s.peers) && g != f
        ensures g in LiveFds(s'.peers)
      {
        var i :| 0 <= i < |s.peers| && s.peers[i].fd == g;
        assert s'.peers[i].fd == g;
      }
    }
  }

  lemma LiveFdsGrow(peers: seq<Peer>, p: Peer)
    ensures LiveFds(peers + [p]) == LiveFds(peers) + if p.fd == 0 then {} else {p.fd}
  {
    var after := peers + [p];
    assert forall j :: 0 <= j < |peers| ==> after[j] == peers[j];
    assert p.fd != 0 ==> after[|peers|].fd in LiveFds(after);
    forall f | f in LiveFds(peers)
      ensures f in LiveFds(after)
    {
      var j :| 0 <= j < |peers| && peers[j].fd == f;
      assert after[j].fd == f;
    }
  }

  /** Filling a fresh slot with a fresh descriptor, or with none. */
  lemma AppendKeepsFdsOwned(s: State, p: Peer)
    requires FdsOwned(s) && p.fd !in s.open
    ensures FdsOwned(s.(peers := s.peers + [p], open := s.open + if p.fd == 0 then {} else {p.fd}))
  {
    var after := s.peers + [p];
    assert forall j :: 0 <= j < |s.peers| ==> after[j] == s.peers[j];
    assert after[|s.peers|] == p;
    assert LiveFds(after) == LiveFds(s.peers) + (if p.fd == 0 then {} else {p.fd}) by {
      forall g | g in LiveFds(s.peers)
        ensures g in LiveFds(after)
      {
        var i :| 0 <= i < |s.peers| && s.peers[i].fd == g;
        assert after[i].fd == g;
      }
      assert p.fd != 0 ==> after[|s.peers|].fd in LiveFds(after);
    }
    forall j | 0 <= j < |s.peers| && s.peers[j].fd != 0
      ensures s.peers[j].fd != p.fd
    {
      LiveFdIsOpen(s, j);
    }
  }

  // ---------------------------------------------------------------- the socket as an object

  class Socket {
    const protocol: Protocol
    var fd: int
    const peers: array<Peer>
    var peerCount: nat
    var tasks: seq<Task>
    var open: set<int>
    var sent: seq<Sent>

    ghost predicate Valid()
      reads this, peers
    {
      && peers.Length == PEERS_MAX_COUNT
      && peerCount <= PEERS_MAX_COUNT
      && forall j :: peerCount <= j < PEERS_MAX_COUNT ==> peers[j] == BLANK
    }

    ghost function View(): State
      reads this, peers
      requires Valid()
    {
      State(protocol, fd, peers[..peerCount], tasks, open, sent)
    }

    /** The kernel supplies the descriptor. */
    constructor (protocol: Protocol, fd: int)
      ensures Valid() && fresh(peers) && View() == Initial(protocol, fd)
    {
      this.protocol := protocol;
      this.fd := fd;
      peers := new Peer[PEERS_MAX_COUNT](_ => BLANK);
      peerCount := 0;
      tasks, sent := [], [];
      open := if fd == 0 then {} else {fd};
    }

    method FindPeer(how: KeyKind, k: Key) returns (r: Option<nat>)
      requires Valid()
      ensures r == Find(how, View().peers, k)
    {
      var i := 0;
      while i < peerCount
        invariant i <= peerCount
        invariant Find(how, View().peers, k) == FindFrom(how, View().peers, k, i)
      {
        if KeyOf(how, peers[i]) == k {
          return Some(i);
        }
        i := i + 1;
      }
      return None;
    }

    method ScheduleTask(kind: TaskKind, remote: Remote, now: int) returns (h: nat)
      requires Valid()
      modifies this`tasks
      ensures Valid() && h == |old(tasks)|
      ensures View() == AddTask(old(View()), kind, remote, now)
    {
      h := |tasks|;
      tasks := tasks + [NewTask(kind, remote, now)];
    }

    method ScheduleReestablishment(remote: Remote, now: int)
      requires Valid()
      modifies this`tasks
      ensures Valid() && View() == AddTask(old(View()), Reestablish, remote, now)
    {
      var _ := ScheduleTask(Reestablish, remote, now);
    }

    /** The kernel takes back only what is open, so no descriptor is closed twice. */
    method CloseFd(f: int) returns (zero: int)
      requires Valid() && (f == 0 || f in open)
      modifies this`open
      ensures Valid() && zero == 0 && open == CloseIn(old(open), f)
    {
      if f != 0 {
        open := open - {f};
      }
      return 0;
    }

    method DisableTasks(j: nat)
      requires Valid() && j < peerCount
      modifies this`tasks, peers
      ensures Valid()
      ensures tasks == old(Cancel(Cancel(tasks, peers[j].ping), peers[j].commLost))
      ensures peers[..] == old(peers[..])[j := old(peers[j]).(ping := None, commLost := None)]
    {
      tasks := Cancel(tasks, peers[j].ping);
      tasks := Cancel(tasks, peers[j].commLost);
      peers[j] := peers[j].(ping := None, commLost := None);
    }

    method RemovePeer(j: nat)
      requires Valid() && j < peerCount
      requires peers[j].fd == 0 || peers[j].fd in open
      modifies this`tasks, this`open, peers
      ensures Valid() && View() == RemoveAt(old(View()), j)
    {
      ghost var before := View();
      if IsUdp(protocol) {
        DisableTasks(j);
      }
      var zero := CloseFd(peers[j].fd);
      peers[j] := peers[j].(fd := zero);
      peers[j] := peers[j].(assocId := 0);
      peers[j] := peers[j].(remote := peers[j].remote.(port := 0));
      peers[j] := peers[j].(path := "");
      assert View().peers == RemoveAt(before, j).peers;
    }

    /** The loop of the send routines: one message to each peer whose key is live. */
    method SendToLive(msg: string)
      requires Valid()
      modifies this`sent
      ensures Valid() && View() == SendAll(old(View()), msg)
    {
      ghost var all := View().peers;
      var how := SendKind(protocol);
      var i := 0;
      while i < peerCount
        invariant i <= peerCount && Valid() && all == peers[..peerCount]
        invariant sent == old(sent) + Addressed(Targets(how, all[..i]), msg)
      {
        var k := KeyOf(how, peers[i]);
        assert all[..i + 1][..i] == all[..i];
        if !Dead(k) {
          sent := sent + [Sent(k, msg)];
        }
        i := i + 1;
      }
      assert all[..i] == all;
    }
  }
}
