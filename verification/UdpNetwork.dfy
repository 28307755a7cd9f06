/** Any number of UDP nodes on a network that delays, loses and duplicates datagrams.

    The clock is shared. What the network owes is carried by the datagrams: a promised
    datagram is handled within `delay` of being sent, and so is the answer to it. Any other
    datagram may be handled late, many times or never. */
module UdpNetwork {
  import opened Sockets
  import opened SocketUdp
  import opened UdpOwnership
  import opened UdpAccounts
  import opened UdpTiming
  import opened SocketCleanUp

  datatype Packet = Packet(src: Remote, dst: Remote, msg: string, sent: int, promised: bool)
  datatype Node = Node(s: State, lastLaunch: int)

  /** covered: (n, r) when node n has sent r a promised probe since n last heard r. */
  datatype Net = Net(now: int, nodes: map<Remote, Node>, wire: multiset<Packet>, covered: set<(Remote, Remote)>)

  /** For a watched pair one of the three probes after each reset is promised, once the other is there. */
  datatype Env = Env(pace: Pace, delay: nat, watched: set<(Remote, Remote)>)

  datatype NetEvent =
    | Pass(to: int)
    | LaunchEnds(n: Remote)
    | Act(n: Remote, event: Event, promise: bool)
    | Deliver(p: Packet, keep: bool)
    | Lose(p: Packet)
    | Join(n: Remote, protocol: Protocol, fd: int, remotes: seq<Remote>)
    | Leave(n: Remote)

  // ---------------------------------------------------------------- steps

  function Emit(n: Remote, sends: seq<Sent>, now: int, promise: bool): multiset<Packet> {
    if sends == [] then multiset{}
    else
      var last := sends[|sends| - 1];
      Emit(n, sends[..|sends| - 1], now, promise) +
      if last.target.RemoteKey? then multiset{Packet(n, last.target.remote, last.msg, now, promise)} else multiset{}
  }

  function IsProbe(s: State, e: Event): bool {
    e.Fire? && e.i < |s.tasks| && s.tasks[e.i].kind == Ping
  }

  predicate NetGuard(c: Net, env: Env, ev: NetEvent) {
    match ev
    case Pass(to) =>
      && c.now <= to
      && (forall n :: n in c.nodes ==> to <= c.nodes[n].lastLaunch + env.pace.period)
      && (forall p :: p in c.wire && p.promised ==> to <= p.sent + env.delay)
    case LaunchEnds(n) => n in c.nodes && NothingDue(c.nodes[n].s, c.now)
    case Act(n, e, promise) =>
      && n in c.nodes
      && (e.Fire? || (e.Say? && e.msg != QUIT_MSG))
      && var s := c.nodes[n].s;
         && Guard(s, e, c.now) && Step(s, e, env.pace.rearm, c.now).Done?
         && (promise ==> IsProbe(s, e) && s.tasks[e.i].remote in c.nodes)
         && (IsProbe(s, e) && s.tasks[e.i].left == 1
             && s.tasks[e.i].remote in c.nodes && (n, s.tasks[e.i].remote) in env.watched ==>
               promise || (n, s.tasks[e.i].remote) in c.covered)
    case Deliver(p, keep) =>
      && p in c.wire && p.src.port != 0
      && (p.dst in c.nodes ==> HandleUdp(c.nodes[p.dst].s, p.src, p.msg, c.now).Done?)
    case Lose(p) => p in c.wire && !p.promised
    case Join(n, protocol, fd, remotes) =>
      n !in c.nodes && n.port != 0 && IsUdp(protocol) && forall r :: r in remotes ==> r.port != 0
    case Leave(n) => n in c.nodes
  }

  function AfterLocal(c: Net, env: Env, n: Remote, e: Event): State
    requires n in c.nodes && Guard(c.nodes[n].s, e, c.now) && Step(c.nodes[n].s, e, env.pace.rearm, c.now).Done?
  {
    Step(c.nodes[n].s, e, env.pace.rearm, c.now).state
  }

  /** What was added to the log of sent messages from one state of a socket to a later one. */
  function Logged(before: State, after: State): seq<Sent> {
    if |before.sent| <= |after.sent| then after.sent[|before.sent|..] else []
  }

  /** What an event makes a node send: what its handlers, or its clean-up, logged as sent. */
  function Sends(c: Net, env: Env, ev: NetEvent): seq<Sent>
    requires NetGuard(c, env, ev)
  {
    match ev
    case Act(n, e, promise) => Logged(c.nodes[n].s, AfterLocal(c, env, n, e))
    case Deliver(p, keep) =>
      if p.dst in c.nodes then Logged(c.nodes[p.dst].s, AfterLocal(c, env, p.dst, Receive(p.src, p.msg))) else []
    case Leave(n) => Logged(c.nodes[n].s, CleanUp(c.nodes[n].s))
    case _ => []
  }

  /** What was promised to or by a node that was here before does not cover the one that joins. */
  function Without(covered: set<(Remote, Remote)>, n: Remote): set<(Remote, Remote)> {
    set pair | pair in covered && pair.0 != n && pair.1 != n
  }

  function NetStep(c: Net, env: Env, ev: NetEvent): Net
    requires NetGuard(c, env, ev)
  {
    match ev
    case Pass(to) => c.(now := to)
    case LaunchEnds(n) => c.(nodes := c.nodes[n := c.nodes[n].(lastLaunch := c.now)])
    case Act(n, e, promise) =>
      c.(nodes := c.nodes[n := c.nodes[n].(s := AfterLocal(c, env, n, e))],
         wire := c.wire + Emit(n, Sends(c, env, ev), c.now, promise),
         covered := if promise then c.covered + {(n, c.nodes[n].s.tasks[e.i].remote)} else c.covered)
    case Deliver(p, keep) =>
      var rest := c.wire - multiset{p} + if keep then multiset{p.(promised := false)} else multiset{};
      if p.dst in c.nodes then
        c.(nodes := c.nodes[p.dst := c.nodes[p.dst].(s := AfterLocal(c, env, p.dst, Receive(p.src, p.msg)))],
           wire := rest + Emit(p.dst, Sends(c, env, ev), c.now, p.promised),
           covered := c.covered - {(p.dst, p.src)})
      else c.(wire := rest)
    case Lose(p) => c.(wire := c.wire - multiset{p})
    case Join(n, protocol, fd, remotes) =>
      c.(nodes := c.nodes[n := Node(ConnectUdp(Initial(protocol, fd), remotes, c.now), c.now)],
         covered := Without(c.covered, n))
    case Leave(n) =>
      c.(nodes := c.nodes - {n}, wire := c.wire + Emit(n, Sends(c, env, ev), c.now, false))
  }

  predicate NetRuns(c: Net, env: Env, evs: seq<NetEvent>)
    decreases |evs|
  {
    evs != [] ==> NetGuard(c, env, evs[0]) && NetRuns(NetStep(c, env, evs[0]), env, evs[1..])
  }

  function AfterNet(c: Net, env: Env, evs: seq<NetEvent>): Net
    requires NetRuns(c, env, evs)
    decreases |evs|
  {
    if evs == [] then c else AfterNet(NetStep(c, env, evs[0]), env, evs[1..])
  }

  lemma {:induction false} EmitIsFrom(n: Remote, sends: seq<Sent>, now: int, promise: bool)
    ensures forall p :: p in Emit(n, sends, now, promise) ==> p.src == n && p.sent == now && p.promised == promise
  {
    if sends != [] {
      EmitIsFrom(n, sends[..|sends| - 1], now, promise);
    }
  }

  lemma {:induction false} EmitSays(n: Remote, sends: seq<Sent>, now: int, promise: bool, p: Packet)
    requires p in Emit(n, sends, now, promise)
    ensures exists i :: 0 <= i < |sends| && sends[i].msg == p.msg
  {
    var front := sends[..|sends| - 1];
    if p in Emit(n, front, now, promise) {
      EmitSays(n, front, now, promise, p);
      var i :| 0 <= i < |front| && front[i].msg == p.msg;
      assert sends[i].msg == p.msg;
    }
  }

  // ---------------------------------------------------------------- what every step keeps

  /** Every node is in a state that its own handlers keep; promises are not yet broken. */
  ghost predicate NetOk(c: Net, env: Env) {
    && (forall n :: n in c.nodes ==> n.port != 0 && UdpInv(c.nodes[n].s))
    && (forall n :: n in c.nodes ==> c.nodes[n].lastLaunch <= c.now <= c.nodes[n].lastLaunch + env.pace.period)
    && (forall p :: p in c.wire && p.promised ==> c.now <= p.sent + env.delay)
  }

  lemma UpdateKeepsOk(c: Net, d: Net, env: Env, n: Remote, s: State, more: multiset<Packet>)
    requires NetOk(c, env) && n in c.nodes && UdpInv(s)
    requires d.now == c.now && d.nodes == c.nodes[n := c.nodes[n].(s := s)]
    requires forall p :: p in d.wire && p.promised ==> p in c.wire || p in more
    requires forall p :: p in more ==> p.sent == c.now
    ensures NetOk(d, env)
  {
  }

  lemma ActKeepsOk(c: Net, env: Env, n: Remote, e: Event, promise: bool)
    requires NetOk(c, env) && NetGuard(c, env, Act(n, e, promise))
    ensures NetOk(NetStep(c, env, Act(n, e, promise)), env)
  {
    var ev := Act(n, e, promise);
    StepKeepsInv(c.nodes[n].s, e, env.pace.rearm, c.now);
    EmitIsFrom(n, Sends(c, env, ev), c.now, promise);
    UpdateKeepsOk(c, NetStep(c, env, ev), env, n, AfterLocal(c, env, n, e), Emit(n, Sends(c, env, ev), c.now, promise));
  }

  lemma DeliverKeepsOk(c: Net, env: Env, p: Packet, keep: bool)
    requires NetOk(c, env) && NetGuard(c, env, Deliver(p, keep))
    ensures NetOk(NetStep(c, env, Deliver(p, keep)), env)
  {
    var ev := Deliver(p, keep);
    if p.dst in c.nodes {
      var e := Receive(p.src, p.msg);
      StepKeepsInv(c.nodes[p.dst].s, e, env.pace.rearm, c.now);
      EmitIsFrom(p.dst, Sends(c, env, ev), c.now, p.promised);
      UpdateKeepsOk(c, NetStep(c, env, ev), env, p.dst, AfterLocal(c, env, p.dst, e),
                    Emit(p.dst, Sends(c, env, ev), c.now, p.promised));
    }
  }

  lemma NetStepKeepsOk(c: Net, env: Env, ev: NetEvent)
    requires NetOk(c, env) && NetGuard(c, env, ev)
    ensures NetOk(NetStep(c, env, ev), env)
  {
    match ev {
      case Pass(to) =>
      case LaunchEnds(n) =>
      case Lose(p) =>
      case Act(n, e, promise) => ActKeepsOk(c, env, n, e, promise);
      case Deliver(p, keep) => DeliverKeepsOk(c, env, p, keep);
      case Join(n, protocol, fd, remotes) =>
        InitialIsOk(protocol, fd);
        ConnectKeepsInv(Initial(protocol, fd), remotes, c.now);
      case Leave(n) => EmitIsFrom(n, Sends(c, env, ev), c.now, false);
    }
  }

  /** What the handlers log, event by event. */
  lemma SendsAre(c: Net, env: Env, ev: NetEvent)
    requires NetOk(c, env) && NetGuard(c, env, ev)
    ensures ev.Act? ==> Sends(c, env, ev) == Reaction(c.nodes[ev.n].s, ev.event)
    ensures ev.Deliver? && ev.p.dst in c.nodes ==>
              Sends(c, env, ev) == Reaction(c.nodes[ev.p.dst].s, Receive(ev.p.src, ev.p.msg))
    ensures ev.Leave? ==> Sends(c, env, ev) == Addressed(Targets(ByRemote, c.nodes[ev.n].s.peers), "q")
  {
    match ev {
      case Act(n, e, promise) => StepSends(c.nodes[n].s, e, env.pace.rearm, c.now);
      case Deliver(p, keep) =>
        if p.dst in c.nodes {
          StepSends(c.nodes[p.dst].s, Receive(p.src, p.msg), env.pace.rearm, c.now);
        }
      case _ =>
    }
  }

  /** The node whose handlers an event runs. */
  predicate Runs(c: Net, ev: NetEvent, n: Remote) {
    n in c.nodes && ((ev.Act? && ev.n == n) || (ev.Deliver? && ev.p.dst == n) || (ev.Leave? && ev.n == n))
  }

  /** How many of these messages are this text for this remote. */
  function Texts(sends: seq<Sent>, r: Remote, msg: string): nat {
    if sends == [] then 0
    else Texts(sends[..|sends| - 1], r, msg) + if sends[|sends| - 1] == Sent(RemoteKey(r), msg) then 1 else 0
  }

  lemma {:induction false} EmitCounts(n: Remote, sends: seq<Sent>, now: int, promise: bool, r: Remote, msg: string)
    ensures Emit(n, sends, now, promise)[Packet(n, r, msg, now, promise)] == Texts(sends, r, msg)
  {
    if sends != [] {
      EmitCounts(n, sends[..|sends| - 1], now, promise, r, msg);
    }
  }

  /** The log of a node that stays grows by what it sends. */
  lemma LogGrows(c: Net, env: Env, ev: NetEvent, n: Remote)
    requires NetOk(c, env) && NetGuard(c, env, ev) && n in c.nodes && ev != Leave(n)
    ensures n in NetStep(c, env, ev).nodes
    ensures NetStep(c, env, ev).nodes[n].s.sent == c.nodes[n].s.sent + if Runs(c, ev, n) then Sends(c, env, ev) else []
  {
    if ev.Act? && ev.n == n {
      StepSends(c.nodes[n].s, ev.event, env.pace.rearm, c.now);
    } else if ev.Deliver? && ev.p.dst == n {
      StepSends(c.nodes[n].s, Receive(ev.p.src, ev.p.msg), env.pace.rearm, c.now);
    }
  }

  predicate Promised(ev: NetEvent) {
    (ev.Act? && ev.promise) || (ev.Deliver? && ev.p.promised)
  }

  /** What is left on the wire of what was there before. */
  function Rest(c: Net, ev: NetEvent): multiset<Packet> {
    if ev.Deliver? then c.wire - multiset{ev.p} + if ev.keep then multiset{ev.p.(promised := false)} else multiset{}
    else c.wire
  }

  /** The wire gains exactly what the node's socket logged: so many copies of each text for each remote, sent by it
      and now; and a node that leaves sends one goodbye for each of its live slots. */
  lemma WireIsLogged(c: Net, env: Env, ev: NetEvent, n: Remote, r: Remote, msg: string)
    requires NetOk(c, env) && NetGuard(c, env, ev) && Runs(c, ev, n)
    ensures var p := Packet(n, r, msg, c.now, Promised(ev));
            NetStep(c, env, ev).wire[p] == Rest(c, ev)[p] + Texts(Sends(c, env, ev), r, msg)
    ensures ev.Leave? ==> Sends(c, env, ev) == Addressed(Targets(ByRemote, c.nodes[n].s.peers), "q")
  {
    SendsAre(c, env, ev);
    EmitCounts(n, Sends(c, env, ev), c.now, Promised(ev), r, msg);
  }

  // ---------------------------------------------------------------- no false failure

  function ResetTime(s: State, w: Watch): int
    requires w.commLost < |s.tasks|
  {
    s.tasks[w.commLost].due - DETECTION_TIME
  }

  /** A promised probe from a to b, or the promised answer to one. */
  predicate Evidence(p: Packet, env: Env, a: Remote, b: Remote, reset: int) {
    && p.promised
    && (|| (p.src == a && p.dst == b && p.msg == KEEP_ALIVE_MSG && p.sent <= reset + 3000 + env.pace.Late())
        || (p.src == b && p.dst == a && p.msg == KEEP_ALIVE_ACK_MSG && p.sent <= reset + 3000 + env.pace.Late() + env.delay))
  }

  ghost predicate UnderWay(wire: multiset<Packet>, env: Env, a: Remote, b: Remote, reset: int) {
    exists p :: p in wire && Evidence(p, env, a, b, reset)
  }

  predicate NoGoodbye(wire: multiset<Packet>, a: Remote, b: Remote) {
    forall p :: p in wire && p.src == b && p.dst == a ==> p.msg != QUIT_MSG
  }

  /** Node a watches b through w: the slot keeps its rhythm, and once the probes are used up,
      something is under way that will reset it. */
  ghost predicate Attends(c: Net, env: Env, a: Remote, b: Remote, w: Watch) {
    && a != b && a in c.nodes && b in c.nodes && w.r == b && (a, b) in env.watched
    && var s := c.nodes[a].s;
       && Tracks(s, w) && Rhythm(s, c.nodes[a].lastLaunch, w, ResetTime(s, w), env.pace)
       && (s.tasks[w.ping].left == 0 ==> (a, b) in c.covered)
       && ((a, b) in c.covered ==> UnderWay(c.wire, env, a, b, ResetTime(s, w)))
       && NoGoodbye(c.wire, a, b)
  }

  /** While a attends to b, comm-lost is not due. */
  lemma NotYetDue(c: Net, env: Env, a: Remote, b: Remote, w: Watch)
    requires NetOk(c, env) && Attends(c, env, a, b, w) && env.pace.Late() + 2 * env.delay < 1000
    ensures c.now < ResetTime(c.nodes[a].s, w) + 4000 == c.nodes[a].s.tasks[w.commLost].due
  {
    if (a, b) in c.covered {
      var p :| p in c.wire && Evidence(p, env, a, b, ResetTime(c.nodes[a].s, w));
    }
  }

  predicate Stays(ev: NetEvent, both: set<Remote>) {
    ev.Leave? ==> ev.n !in both
  }

  lemma WireGrows(wire: multiset<Packet>, n: Remote, sends: seq<Sent>, now: int, promise: bool, env: Env, a: Remote, b: Remote, reset: int)
    requires NoGoodbye(wire, a, b)
    requires n == b ==> forall i :: 0 <= i < |sends| ==> sends[i].msg != QUIT_MSG
    ensures NoGoodbye(wire + Emit(n, sends, now, promise), a, b)
    ensures UnderWay(wire, env, a, b, reset) ==> UnderWay(wire + Emit(n, sends, now, promise), env, a, b, reset)
  {
    EmitIsFrom(n, sends, now, promise);
    forall p | p in Emit(n, sends, now, promise) && p.src == b
      ensures p.msg != QUIT_MSG
    {
      EmitSays(n, sends, now, promise, p);
    }
    if UnderWay(wire, env, a, b, reset) {
      var p :| p in wire && Evidence(p, env, a, b, reset);
      assert p in wire + Emit(n, sends, now, promise);
    }
  }

  /** A datagram is taken off the wire, or only loses its promise. */
  lemma WireLoses(wire: multiset<Packet>, p: Packet, keep: bool, env: Env, a: Remote, b: Remote, reset: int)
    requires NoGoodbye(wire, a, b) && p in wire
    ensures var rest := wire - multiset{p} + if keep then multiset{p.(promised := false)} else multiset{};
            && NoGoodbye(rest, a, b)
            && (UnderWay(wire, env, a, b, reset) && !Evidence(p, env, a, b, reset) ==> UnderWay(rest, env, a, b, reset))
  {
    if UnderWay(wire, env, a, b, reset) && !Evidence(p, env, a, b, reset) {
      var q :| q in wire && Evidence(q, env, a, b, reset);
      assert q in wire - multiset{p} + if keep then multiset{p.(promised := false)} else multiset{};
    }
  }

  /** The new facts about node a's slot and about the wire, put together. */
  lemma StillAttends(c: Net, d: Net, env: Env, a: Remote, b: Remote, w: Watch)
    requires Attends(c, env, a, b, w) && a in d.nodes && b in d.nodes
    requires Rhythm(d.nodes[a].s, d.nodes[a].lastLaunch, w, ResetTime(c.nodes[a].s, w), env.pace)
    requires d.nodes[a].s.tasks[w.ping].left == 0 ==> (a, b) in d.covered
    requires (a, b) in d.covered ==> UnderWay(d.wire, env, a, b, ResetTime(c.nodes[a].s, w))
    requires NoGoodbye(d.wire, a, b)
    ensures Attends(d, env, a, b, w)
  {
  }

  /** Node a's own ping: a promised one is under way, and the third is promised or covered. */
  lemma PingKeepsAttention(c: Net, env: Env, a: Remote, b: Remote, w: Watch, promise: bool)
    requires NetOk(c, env) && Attends(c, env, a, b, w)
    requires NetGuard(c, env, Act(a, Fire(w.ping), promise))
    ensures Attends(NetStep(c, env, Act(a, Fire(w.ping), promise)), env, a, b, w)
  {
    var ev := Act(a, Fire(w.ping), promise);
    var s, d, reset := c.nodes[a].s, NetStep(c, env, ev), ResetTime(c.nodes[a].s, w);
    var sends := Sends(c, env, ev);
    assert SlotOk(s, w.j);
    SendsAre(c, env, ev);
    EventKeepsRhythm(s, c.nodes[a].lastLaunch, w, reset, env.pace, Fire(w.ping), c.now);
    WireGrows(c.wire, a, sends, c.now, promise, env, a, b, reset);
    if promise {
      assert sends == [Sent(RemoteKey(b), KEEP_ALIVE_MSG)] && sends[..0] == [];
      assert Packet(a, b, KEEP_ALIVE_MSG, c.now, true) in d.wire;
    }
    StillAttends(c, d, env, a, b, w);
  }

  /** Node a's other events: comm-lost is not due. */
  lemma ActKeepsAttention(c: Net, env: Env, a: Remote, b: Remote, w: Watch, e: Event, promise: bool)
    requires NetOk(c, env) && Attends(c, env, a, b, w) && env.pace.Late() + 2 * env.delay < 1000
    requires NetGuard(c, env, Act(a, e, promise)) && e != Fire(w.ping)
    ensures e != Fire(w.commLost)
    ensures Attends(NetStep(c, env, Act(a, e, promise)), env, a, b, w)
  {
    var ev := Act(a, e, promise);
    var s, d, reset := c.nodes[a].s, NetStep(c, env, ev), ResetTime(c.nodes[a].s, w);
    NotYetDue(c, env, a, b, w);
    EventKeepsRhythm(s, c.nodes[a].lastLaunch, w, reset, env.pace, e, c.now);
    WireGrows(c.wire, a, Sends(c, env, ev), c.now, promise, env, a, b, reset);
    if promise && s.tasks[e.i].remote == b {
      ForeignFiring(s, w, e.i);
    }
    StillAttends(c, d, env, a, b, w);
  }

  /** Messages to a from others. */
  lemma StrangerKeepsAttention(c: Net, env: Env, a: Remote, b: Remote, w: Watch, p: Packet, keep: bool)
    requires NetOk(c, env) && Attends(c, env, a, b, w)
    requires NetGuard(c, env, Deliver(p, keep)) && p.src != b && p.dst == a
    ensures Attends(NetStep(c, env, Deliver(p, keep)), env, a, b, w)
  {
    var ev := Deliver(p, keep);
    var rest := c.wire - multiset{p} + if keep then multiset{p.(promised := false)} else multiset{};
    var s, d, reset := c.nodes[a].s, NetStep(c, env, ev), ResetTime(c.nodes[a].s, w);
    EventKeepsRhythm(s, c.nodes[a].lastLaunch, w, reset, env.pace, Receive(p.src, p.msg), c.now);
    WireLoses(c.wire, p, keep, env, a, b, reset);
    WireGrows(rest, a, Sends(c, env, ev), c.now, p.promised, env, a, b, reset);
    StillAttends(c, d, env, a, b, w);
  }

  lemma AnswerKeepsWire(c: Net, env: Env, a: Remote, b: Remote, p: Packet, keep: bool, reset: int)
    requires NetOk(c, env) && NetGuard(c, env, Deliver(p, keep)) && p.dst != a && a != b && b in c.nodes
    requires NoGoodbye(c.wire, a, b)
    ensures var d := NetStep(c, env, Deliver(p, keep));
            NoGoodbye(d.wire, a, b) && (UnderWay(c.wire, env, a, b, reset) ==> UnderWay(d.wire, env, a, b, reset))
  {
    var ev := Deliver(p, keep);
    var rest := c.wire - multiset{p} + if keep then multiset{p.(promised := false)} else multiset{};
    SendsAre(c, env, ev);
    WireLoses(c.wire, p, keep, env, a, b, reset);
    if p.dst in c.nodes {
      WireGrows(rest, p.dst, Sends(c, env, ev), c.now, p.promised, env, a, b, reset);
      if Evidence(p, env, a, b, reset) {
        assert Sends(c, env, ev) == [Sent(RemoteKey(a), KEEP_ALIVE_ACK_MSG)];
        AnswerIsUnderWay(rest, p, c.now, env, a, b, reset);
      }
    }
  }

  /** Messages to other nodes: at b, a promised probe from a turns into a promised answer. */
  lemma AnswerKeepsAttention(c: Net, env: Env, a: Remote, b: Remote, w: Watch, p: Packet, keep: bool)
    requires NetOk(c, env) && Attends(c, env, a, b, w)
    requires NetGuard(c, env, Deliver(p, keep)) && p.dst != a
    ensures Attends(NetStep(c, env, Deliver(p, keep)), env, a, b, w)
  {
    AnswerKeepsWire(c, env, a, b, p, keep, ResetTime(c.nodes[a].s, w));
    StillAttends(c, NetStep(c, env, Deliver(p, keep)), env, a, b, w);
  }

  lemma AnswerIsUnderWay(rest: multiset<Packet>, p: Packet, now: int, env: Env, a: Remote, b: Remote, reset: int)
    requires Evidence(p, env, a, b, reset) && p.dst == b && a != b && now <= p.sent + env.delay
    ensures UnderWay(rest + Emit(b, [Sent(RemoteKey(a), KEEP_ALIVE_ACK_MSG)], now, true), env, a, b, reset)
  {
    var ack := Sent(RemoteKey(a), KEEP_ALIVE_ACK_MSG);
    assert [ack][..0] == [];
    assert Packet(b, a, KEEP_ALIVE_ACK_MSG, now, true) in Emit(b, [ack], now, true);
    assert Evidence(Packet(b, a, KEEP_ALIVE_ACK_MSG, now, true), env, a, b, reset);
  }

  /** What other nodes do by themselves; b does not say goodbye. */
  lemma ElsewhereKeepsAttention(c: Net, env: Env, ev: NetEvent, a: Remote, b: Remote, w: Watch)
    requires NetOk(c, env) && Attends(c, env, a, b, w) && NetGuard(c, env, ev) && Stays(ev, {a, b})
    requires (ev.Act? && ev.n != a) || ev.Leave?
    ensures Attends(NetStep(c, env, ev), env, a, b, w)
  {
    SendsAre(c, env, ev);
    WireGrows(c.wire, ev.n, Sends(c, env, ev), c.now, ev.Act? && ev.promise, env, a, b, ResetTime(c.nodes[a].s, w));
    StillAttends(c, NetStep(c, env, ev), env, a, b, w);
  }

  lemma LaunchKeepsAttention(c: Net, env: Env, n: Remote, a: Remote, b: Remote, w: Watch)
    requires Attends(c, env, a, b, w) && NetGuard(c, env, LaunchEnds(n))
    ensures Attends(NetStep(c, env, LaunchEnds(n)), env, a, b, w)
  {
    if n == a {
      LaunchKeepsRhythm(c.nodes[a].s, c.nodes[a].lastLaunch, w, ResetTime(c.nodes[a].s, w), env.pace, c.now);
    }
    StillAttends(c, NetStep(c, env, LaunchEnds(n)), env, a, b, w);
  }

  lemma LossKeepsAttention(c: Net, env: Env, p: Packet, a: Remote, b: Remote, w: Watch)
    requires Attends(c, env, a, b, w) && NetGuard(c, env, Lose(p))
    ensures Attends(NetStep(c, env, Lose(p)), env, a, b, w)
  {
    WireLoses(c.wire, p, false, env, a, b, ResetTime(c.nodes[a].s, w));
    assert c.wire - multiset{p} + multiset{} == c.wire - multiset{p};
    StillAttends(c, NetStep(c, env, Lose(p)), env, a, b, w);
  }

  lemma NetStepKeepsAttention(c: Net, env: Env, ev: NetEvent, a: Remote, b: Remote, w: Watch)
    requires NetOk(c, env) && Attends(c, env, a, b, w) && NetGuard(c, env, ev) && Stays(ev, {a, b})
    requires env.pace.Late() + 2 * env.delay < 1000
    ensures Attends(NetStep(c, env, ev), env, a, b, w)
    ensures ev.Act? && ev.n == a ==> ev.event != Fire(w.commLost)
  {
    match ev {
      case Pass(to) => StillAttends(c, NetStep(c, env, ev), env, a, b, w);
      case Join(n, protocol, fd, remotes) => StillAttends(c, NetStep(c, env, ev), env, a, b, w);
      case LaunchEnds(n) => LaunchKeepsAttention(c, env, n, a, b, w);
      case Lose(p) => LossKeepsAttention(c, env, p, a, b, w);
      case Act(n, e, promise) =>
        if n != a {
          ElsewhereKeepsAttention(c, env, ev, a, b, w);
        } else if e == Fire(w.ping) {
                PingKeepsAttention(c, env, a, b, w, promise);
        } else {
          ActKeepsAttention(c, env, a, b, w, e, promise);
        }
      case Deliver(p, keep) =>
        if p.dst != a {
          AnswerKeepsAttention(c, env, a, b, w, p, keep);
        } else if p.src == b {
          HearingStartsAttention(c, env, p, keep, a, b, w);
        } else {
          StrangerKeepsAttention(c, env, a, b, w, p, keep);
        }
      case Leave(n) => ElsewhereKeepsAttention(c, env, ev, a, b, w);
    }
  }

  predicate Stay(evs: seq<NetEvent>, both: set<Remote>) {
    evs != [] ==> Stays(evs[0], both) && Stay(evs[1..], both)
  }

  /** No event of the run is the firing of a's task i. */
  predicate NeverFires(evs: seq<NetEvent>, a: Remote, i: nat) {
    evs != [] ==> !(evs[0].Act? && evs[0].n == a && evs[0].event == Fire(i)) && NeverFires(evs[1..], a, i)
  }

  lemma {:induction false} AttentionLasts(c: Net, env: Env, evs: seq<NetEvent>, a: Remote, b: Remote, w: Watch)
    requires NetOk(c, env) && Attends(c, env, a, b, w) && env.pace.Late() + 2 * env.delay < 1000
    requires NetRuns(c, env, evs) && Stay(evs, {a, b})
    ensures NetOk(AfterNet(c, env, evs), env) && Attends(AfterNet(c, env, evs), env, a, b, w)
    ensures NeverFires(evs, a, w.commLost)
    decreases |evs|
  {
    if evs != [] {
      NetStepKeepsOk(c, env, evs[0]);
      NetStepKeepsAttention(c, env, evs[0], a, b, w);
      AttentionLasts(NetStep(c, env, evs[0]), env, evs[1..], a, b, w);
    }
  }

  /** Node a still has the slot w, and less than 4000 has passed since its last reset. */
  predicate InTouch(c: Net, a: Remote, w: Watch) {
    a in c.nodes && Tracks(c.nodes[a].s, w) && c.now < ResetTime(c.nodes[a].s, w) + 4000
  }

  /** Two nodes that watch each other, on a network where one probe of three gets through and back,
      never lose each other: in no run does comm-lost fire on either, and each hears the other again
      within 4000. */
  lemma NoFalseFailure(c: Net, env: Env, evs: seq<NetEvent>, a: Remote, wa: Watch, b: Remote, wb: Watch)
    requires NetOk(c, env) && Attends(c, env, a, b, wa) && Attends(c, env, b, a, wb)
    requires env.pace.Late() + 2 * env.delay < 1000
    requires NetRuns(c, env, evs) && Stay(evs, {a, b})
    ensures NeverFires(evs, a, wa.commLost) && NeverFires(evs, b, wb.commLost)
    ensures InTouch(AfterNet(c, env, evs), a, wa) && InTouch(AfterNet(c, env, evs), b, wb)
  {
    assert {a, b} == {b, a};
    AttentionLasts(c, env, evs, a, b, wa);
    AttentionLasts(c, env, evs, b, a, wb);
    NotYetDue(AfterNet(c, env, evs), env, a, b, wa);
    NotYetDue(AfterNet(c, env, evs), env, b, a, wb);
  }

  // ---------------------------------------------------------------- how attention starts

  /** Any message from b makes a attend to b: one that resets b's slot, or one from which b is learned. */
  lemma HearingStartsAttention(c: Net, env: Env, p: Packet, keep: bool, a: Remote, b: Remote, w: Watch)
    requires NetOk(c, env) && NetGuard(c, env, Deliver(p, keep)) && p.src == b && p.dst == a
    requires a != b && a in c.nodes && b in c.nodes && (a, b) in env.watched && NoGoodbye(c.wire, a, b)
    requires (w.r == b && Tracks(c.nodes[a].s, w)) || Learns(c.nodes[a].s, b, w)
    ensures Attends(NetStep(c, env, Deliver(p, keep)), env, a, b, w)
  {
    var s, d := c.nodes[a].s, NetStep(c, env, Deliver(p, keep));
    NoGoodbyeHeard(c, env, p, keep, a, b);
    if Learns(s, b, w) {
      var s1 := if p.msg == KEEP_ALIVE_MSG then SendTo(s, b, KEEP_ALIVE_ACK_MSG) else s;
      CountdownIsFree(s, s1);
      CommUpStartsRhythm(s1, c.nodes[a].lastLaunch, b, c.now, env.pace);
      assert d.nodes[a].s == CommUpUdp(s1, b, c.now);
    } else {
      ResetStartsRhythm(s, c.nodes[a].lastLaunch, w, p.msg, c.now, env.pace);
    }
  }

  /** There is room for r, no slot yet and no reconnect pending; w is the slot it will get. */
  predicate Learns(s: State, r: Remote, w: Watch) {
    && !Full(s) && (forall k :: 0 <= k < |s.peers| ==> s.peers[k].remote != r) && NoReconnect(s, r)
    && w == Watch(|s.peers|, r, |s.tasks|, |s.tasks| + 1)
  }

  /** From the first message on, a never loses b, in any run. */
  lemma OnceHeardNeverLost(c: Net, env: Env, p: Packet, keep: bool, evs: seq<NetEvent>, a: Remote, b: Remote, w: Watch)
    requires NetOk(c, env) && NetGuard(c, env, Deliver(p, keep)) && p.src == b && p.dst == a
    requires a != b && a in c.nodes && b in c.nodes && (a, b) in env.watched && NoGoodbye(c.wire, a, b)
    requires (w.r == b && Tracks(c.nodes[a].s, w)) || Learns(c.nodes[a].s, b, w)
    requires env.pace.Late() + 2 * env.delay < 1000
    requires NetRuns(NetStep(c, env, Deliver(p, keep)), env, evs) && Stay(evs, {a, b})
    ensures var d := AfterNet(NetStep(c, env, Deliver(p, keep)), env, evs);
            NeverFires(evs, a, w.commLost) && InTouch(d, a, w)
  {
    var c1 := NetStep(c, env, Deliver(p, keep));
    HearingStartsAttention(c, env, p, keep, a, b, w);
    NetStepKeepsOk(c, env, Deliver(p, keep));
    AttentionLasts(c1, env, evs, a, b, w);
    NotYetDue(AfterNet(c1, env, evs), env, a, b, w);
  }

  /** A node whose state is that just after a connect to any number of remotes attends to each. */
  lemma ConnectingStartsAttention(c: Net, env: Env, a: Remote, before: State, remotes: seq<Remote>, j: nat, b: Remote)
    requires NetOk(c, env) && a != b && a in c.nodes && b in c.nodes && (a, b) in env.watched && (a, b) !in c.covered
    requires UdpInv(before) && FindRemote(before, b).None? && NoReconnect(before, b)
    requires (forall x :: x in remotes ==> x.port != 0) && OnlyAt(remotes, j, b) && |before.peers| + j < PEERS_MAX_COUNT
    requires c.nodes[a].s == ConnectUdp(before, remotes, c.now) && NoGoodbye(c.wire, a, b)
    ensures Attends(c, env, a, b, Watch(|before.peers| + j, b, |before.tasks| + 2 * j, |before.tasks| + 2 * j + 1))
  {
    ConnectStartsRhythm(before, remotes, j, b, c.nodes[a].lastLaunch, c.now, env.pace);
  }

  /** The firing of the last pending reconnect to a peer that is there starts attention: the slot's three pings and its
      comm-lost count from the firing. */
  lemma ReconnectingStartsAttention(c: Net, env: Env, a: Remote, i: nat, b: Remote)
    requires NetOk(c, env) && NetGuard(c, env, Act(a, Fire(i), false))
    requires a != b && b in c.nodes && (a, b) in env.watched && (a, b) !in c.covered && NoGoodbye(c.wire, a, b)
    requires LastReconnect(c.nodes[a].s, i, b) && !Full(c.nodes[a].s)
    ensures var s, d := c.nodes[a].s, NetStep(c, env, Act(a, Fire(i), false));
            var w := Watch(|s.peers|, b, |s.tasks|, |s.tasks| + 1);
            Attends(d, env, a, b, w) && ResetTime(d.nodes[a].s, w) == c.now && d.nodes[a].s.tasks[w.ping].left == 3
  {
    NoGoodbyeStays(c, env, Act(a, Fire(i), false), a, b);
    ReconnectStartsRhythm(c.nodes[a].s, i, b, c.nodes[a].lastLaunch, env.pace, c.now);
  }

  function WatchAt(j: nat, r: Remote): Watch {
    Watch(j, r, 2 * j, 2 * j + 1)
  }

  /** A node that joins attends at once to each of its remotes that is there. */
  lemma JoiningStartsRhythm(c: Net, env: Env, a: Remote, protocol: Protocol, fd: int, remotes: seq<Remote>, j: nat, b: Remote)
    requires NetOk(c, env) && NetGuard(c, env, Join(a, protocol, fd, remotes))
    requires OnlyAt(remotes, j, b) && j < PEERS_MAX_COUNT && NoGoodbye(c.wire, a, b)
    ensures var d, w := NetStep(c, env, Join(a, protocol, fd, remotes)), WatchAt(j, b);
            && Awaits(d, env, a, b, w) && ResetTime(d.nodes[a].s, w) == c.now
            && (a != b && b in c.nodes && (a, b) in env.watched ==> Attends(d, env, a, b, w))
  {
    InitialIsOk(protocol, fd);
    ConnectStartsRhythm(Initial(protocol, fd), remotes, j, b, c.now, c.now, env.pace);
  }

  /** Node a has connected to b and has a ping left for it; b need not be there yet. */
  ghost predicate Awaits(c: Net, env: Env, a: Remote, b: Remote, w: Watch) {
    && a in c.nodes && w.r == b
    && var s := c.nodes[a].s;
       && Tracks(s, w) && Rhythm(s, c.nodes[a].lastLaunch, w, ResetTime(s, w), env.pace)
       && s.tasks[w.ping].left > 0
       && NoGoodbye(c.wire, a, b)
  }

  lemma NoGoodbyeHeard(c: Net, env: Env, p: Packet, keep: bool, a: Remote, b: Remote)
    requires NetOk(c, env) && NetGuard(c, env, Deliver(p, keep)) && NoGoodbye(c.wire, a, b)
    ensures NoGoodbye(NetStep(c, env, Deliver(p, keep)).wire, a, b)
  {
    WireLoses(c.wire, p, keep, env, a, b, 0);
    if p.dst in c.nodes {
      SendsAre(c, env, Deliver(p, keep));
      var rest := c.wire - multiset{p} + if keep then multiset{p.(promised := false)} else multiset{};
      WireGrows(rest, p.dst, Sends(c, env, Deliver(p, keep)), c.now, p.promised, env, a, b, 0);
    }
  }

  lemma NoGoodbyeSaid(c: Net, env: Env, ev: NetEvent, a: Remote, b: Remote)
    requires NetOk(c, env) && NetGuard(c, env, ev) && (ev.Act? || ev.Leave?) && ev != Leave(b) && NoGoodbye(c.wire, a, b)
    ensures NoGoodbye(NetStep(c, env, ev).wire, a, b)
  {
    SendsAre(c, env, ev);
    WireGrows(c.wire, ev.n, Sends(c, env, ev), c.now, ev.Act? && ev.promise, env, a, b, 0);
  }

  /** A goodbye is on its way only from a node that left. */
  lemma NoGoodbyeStays(c: Net, env: Env, ev: NetEvent, a: Remote, b: Remote)
    requires NetOk(c, env) && NetGuard(c, env, ev) && ev != Leave(b) && NoGoodbye(c.wire, a, b)
    ensures NoGoodbye(NetStep(c, env, ev).wire, a, b)
  {
    if ev.Deliver? {
      NoGoodbyeHeard(c, env, ev.p, ev.keep, a, b);
    } else if ev.Act? || ev.Leave? {
      NoGoodbyeSaid(c, env, ev, a, b);
    }
  }

  lemma StillAwaits(d: Net, env: Env, a: Remote, b: Remote, w: Watch, reset: int)
    requires a in d.nodes && w.r == b && Rhythm(d.nodes[a].s, d.nodes[a].lastLaunch, w, reset, env.pace)
    requires d.nodes[a].s.tasks[w.ping].left > 0 && NoGoodbye(d.wire, a, b)
    ensures Awaits(d, env, a, b, w) && ResetTime(d.nodes[a].s, w) == reset
  {
  }

  /** The third ping is not due yet. */
  lemma AwaitingActs(c: Net, env: Env, a: Remote, b: Remote, w: Watch, e: Event, promise: bool)
    requires NetOk(c, env) && Awaits(c, env, a, b, w) && c.now < ResetTime(c.nodes[a].s, w) + 3000
    requires NetGuard(c, env, Act(a, e, promise))
    ensures var d := NetStep(c, env, Act(a, e, promise));
            Awaits(d, env, a, b, w) && ResetTime(d.nodes[a].s, w) == ResetTime(c.nodes[a].s, w) && e != Fire(w.commLost)
  {
    var s, reset := c.nodes[a].s, ResetTime(c.nodes[a].s, w);
    assert SlotOk(s, w.j);
    EventKeepsRhythm(s, c.nodes[a].lastLaunch, w, reset, env.pace, e, c.now);
    NoGoodbyeStays(c, env, Act(a, e, promise), a, b);
    StillAwaits(NetStep(c, env, Act(a, e, promise)), env, a, b, w, reset);
  }

  lemma AwaitingHears(c: Net, env: Env, p: Packet, keep: bool, a: Remote, b: Remote, w: Watch)
    requires NetOk(c, env) && Awaits(c, env, a, b, w) && NetGuard(c, env, Deliver(p, keep)) && p.dst == a
    ensures var d := NetStep(c, env, Deliver(p, keep));
            && Awaits(d, env, a, b, w)
            && ResetTime(d.nodes[a].s, w) == if p.src == b then c.now else ResetTime(c.nodes[a].s, w)
  {
    var s, lastLaunch, d := c.nodes[a].s, c.nodes[a].lastLaunch, NetStep(c, env, Deliver(p, keep));
    NoGoodbyeStays(c, env, Deliver(p, keep), a, b);
    if p.src == b {
      ResetStartsRhythm(s, lastLaunch, w, p.msg, c.now, env.pace);
      StillAwaits(d, env, a, b, w, c.now);
    } else {
      EventKeepsRhythm(s, lastLaunch, w, ResetTime(s, w), env.pace, Receive(p.src, p.msg), c.now);
      StillAwaits(d, env, a, b, w, ResetTime(s, w));
    }
  }

  lemma StepKeepsAwaiting(c: Net, env: Env, ev: NetEvent, a: Remote, b: Remote, w: Watch, since: int)
    requires NetOk(c, env) && Awaits(c, env, a, b, w) && NetGuard(c, env, ev) && b !in c.nodes && ev != Leave(a)
    requires since <= ResetTime(c.nodes[a].s, w) && since <= c.now < since + 3000
    ensures var d := NetStep(c, env, ev); Awaits(d, env, a, b, w) && since <= ResetTime(d.nodes[a].s, w)
    ensures ev.Act? && ev.n == a ==> ev.event != Fire(w.commLost)
  {
    if ev.Act? && ev.n == a {
      AwaitingActs(c, env, a, b, w, ev.event, ev.promise);
    } else if ev.Deliver? && ev.p.dst == a {
      AwaitingHears(c, env, ev.p, ev.keep, a, b, w);
    } else {
      if ev == LaunchEnds(a) {
        LaunchKeepsRhythm(c.nodes[a].s, c.nodes[a].lastLaunch, w, ResetTime(c.nodes[a].s, w), env.pace, c.now);
      }
      NoGoodbyeStays(c, env, ev, a, b);
      StillAwaits(NetStep(c, env, ev), env, a, b, w, ResetTime(c.nodes[a].s, w));
    }
  }

  /** Node a stays, and b does not come. */
  predicate StaysWithout(evs: seq<NetEvent>, a: Remote, b: Remote) {
    evs != [] ==> evs[0] != Leave(a) && !(evs[0].Join? && evs[0].n == b) && StaysWithout(evs[1..], a, b)
  }

  lemma {:induction false} TimeGoesOn(c: Net, env: Env, evs: seq<NetEvent>)
    requires NetRuns(c, env, evs)
    ensures c.now <= AfterNet(c, env, evs).now
    decreases |evs|
  {
    if evs != [] {
      TimeGoesOn(NetStep(c, env, evs[0]), env, evs[1..]);
    }
  }

  /** For 3000 a node awaits a peer that is not there yet. */
  lemma {:induction false} AwaitingLasts(c: Net, env: Env, evs: seq<NetEvent>, a: Remote, b: Remote, w: Watch, since: int)
    requires NetOk(c, env) && Awaits(c, env, a, b, w) && b !in c.nodes && NetRuns(c, env, evs) && StaysWithout(evs, a, b)
    requires since <= ResetTime(c.nodes[a].s, w) && since <= c.now && AfterNet(c, env, evs).now < since + 3000
    requires NoGoodbye(c.wire, b, a)
    ensures var d := AfterNet(c, env, evs);
            NetOk(d, env) && Awaits(d, env, a, b, w) && b !in d.nodes && NoGoodbye(d.wire, b, a)
    ensures NeverFires(evs, a, w.commLost)
    decreases |evs|
  {
    if evs != [] {
      TimeGoesOn(c, env, evs);
      StepKeepsAwaiting(c, env, evs[0], a, b, w, since);
      NoGoodbyeStays(c, env, evs[0], b, a);
      NetStepKeepsOk(c, env, evs[0]);
      AwaitingLasts(NetStep(c, env, evs[0]), env, evs[1..], a, b, w, since);
    }
  }

  /** A node that joins a network, with any number of remotes, never loses one of them that is there. */
  lemma JoiningNodeKeepsItsPeers(c: Net, env: Env, a: Remote, protocol: Protocol, fd: int, remotes: seq<Remote>, j: nat, b: Remote, evs: seq<NetEvent>)
    requires NetOk(c, env) && NetGuard(c, env, Join(a, protocol, fd, remotes)) && NoGoodbye(c.wire, a, b)
    requires OnlyAt(remotes, j, b) && j < PEERS_MAX_COUNT && a != b && b in c.nodes && (a, b) in env.watched
    requires env.pace.Late() + 2 * env.delay < 1000
    requires NetRuns(NetStep(c, env, Join(a, protocol, fd, remotes)), env, evs) && Stay(evs, {a, b})
    ensures var d, w := AfterNet(NetStep(c, env, Join(a, protocol, fd, remotes)), env, evs), WatchAt(j, b);
            NeverFires(evs, a, w.commLost) && InTouch(d, a, w)
  {
    var c1 := NetStep(c, env, Join(a, protocol, fd, remotes));
    JoiningStartsRhythm(c, env, a, protocol, fd, remotes, j, b);
    NetStepKeepsOk(c, env, Join(a, protocol, fd, remotes));
    AttentionLasts(c1, env, evs, a, b, WatchAt(j, b));
    NotYetDue(AfterNet(c1, env, evs), env, a, b, WatchAt(j, b));
  }

  /** From a network in which neither is: a joins, other things happen, b joins less than 3000 after a, and
      each has the other among its remotes. Then in no run do they lose each other. */
  lemma NodesThatJoinStayInTouch(c: Net, env: Env, joinA: NetEvent, ja: nat, before: seq<NetEvent>,
                                 joinB: NetEvent, jb: nat, after: seq<NetEvent>)
    requires NetOk(c, env) && env.pace.Late() + 2 * env.delay < 1000
    requires joinA.Join? && joinB.Join? && joinA.n != joinB.n && joinB.n !in c.nodes
    requires (joinA.n, joinB.n) in env.watched && (joinB.n, joinA.n) in env.watched
    requires NoGoodbye(c.wire, joinA.n, joinB.n) && NoGoodbye(c.wire, joinB.n, joinA.n)
    requires OnlyAt(joinA.remotes, ja, joinB.n) && ja < PEERS_MAX_COUNT
    requires OnlyAt(joinB.remotes, jb, joinA.n) && jb < PEERS_MAX_COUNT
    requires NetGuard(c, env, joinA) && NetRuns(NetStep(c, env, joinA), env, before) && StaysWithout(before, joinA.n, joinB.n)
    requires var c2 := AfterNet(NetStep(c, env, joinA), env, before);
             c2.now < c.now + 3000 && NetGuard(c2, env, joinB)
             && NetRuns(NetStep(c2, env, joinB), env, after) && Stay(after, {joinA.n, joinB.n})
    ensures var a, wa, b, wb := joinA.n, WatchAt(ja, joinB.n), joinB.n, WatchAt(jb, joinA.n);
            var d := AfterNet(NetStep(AfterNet(NetStep(c, env, joinA), env, before), env, joinB), env, after);
            && NeverFires(before, a, wa.commLost) && NeverFires(after, a, wa.commLost) && NeverFires(after, b, wb.commLost)
            && InTouch(d, a, wa) && InTouch(d, b, wb)
  {
    var a, wa, b, wb := joinA.n, WatchAt(ja, joinB.n), joinB.n, WatchAt(jb, joinA.n);
    var c1 := NetStep(c, env, joinA);
    JoiningStartsRhythm(c, env, a, joinA.protocol, joinA.fd, joinA.remotes, ja, b);
    NetStepKeepsOk(c, env, joinA);
    AwaitingLasts(c1, env, before, a, b, wa, c.now);
    var c2 := AfterNet(c1, env, before);
    assert Attends(NetStep(c2, env, joinB), env, a, b, wa);
    JoiningStartsRhythm(c2, env, b, joinB.protocol, joinB.fd, joinB.remotes, jb, a);
    NetStepKeepsOk(c2, env, joinB);
    assert {a, b} == {joinA.n, joinB.n};
    NoFalseFailure(NetStep(c2, env, joinB), env, after, a, wa, b, wb);
  }

  /** Such as the network in which no one is yet. */
  function Nobody(now: int): Net {
    Net(now, map[], multiset{}, {})
  }

  function BothJoined(now: int, a: Remote, b: Remote, fd: int): Net {
    Net(now, map[a := Node(ConnectUdp(Initial(UDP, fd), [b], now), now), b := Node(ConnectUdp(Initial(UDP, fd), [a], now), now)],
        multiset{}, {})
  }

  /** Two nodes that come out of nothing and connect to each other: in no run that follows, with others joining and
      leaving as they like, do they lose each other. */
  lemma TwoNodesFromNothing(now: int, env: Env, a: Remote, b: Remote, fd: int, after: seq<NetEvent>)
    requires a != b && a.port != 0 && b.port != 0 && (a, b) in env.watched && (b, a) in env.watched
    requires env.pace.Late() + 2 * env.delay < 1000
    requires NetRuns(BothJoined(now, a, b, fd), env, after) && Stay(after, {a, b})
    ensures NeverFires(after, a, 1) && NeverFires(after, b, 1)
    ensures var d := AfterNet(BothJoined(now, a, b, fd), env, after);
            InTouch(d, a, WatchAt(0, b)) && InTouch(d, b, WatchAt(0, a))
  {
    var joinA, joinB := Join(a, UDP, fd, [b]), Join(b, UDP, fd, [a]);
    assert NetStep(NetStep(Nobody(now), env, joinA), env, joinB) == BothJoined(now, a, b, fd);
    assert OnlyAt([b], 0, b) && OnlyAt([a], 0, a);
    NodesThatJoinStayInTouch(Nobody(now), env, joinA, 0, [], joinB, 0, after);
  }

  // ---------------------------------------------------------------- no acknowledgement storm

  /** The acknowledgements that node n sends to r in a run, other than what a user types. */
  function Acks(c: Net, env: Env, evs: seq<NetEvent>, n: Remote, r: Remote): nat
    requires NetRuns(c, env, evs)
    decreases |evs|
  {
    if evs == [] then 0
    else
      var ev := evs[0];
      (if Runs(c, ev, n) && !(ev.Act? && ev.event.Say?) then Texts(Sends(c, env, ev), r, "kack") else 0)
      + Acks(NetStep(c, env, ev), env, evs[1..], n, r)
  }

  predicate IsProbeDelivery(c: Net, ev: NetEvent, n: Remote, r: Remote) {
    ev.Deliver? && ev.p.dst == n && n in c.nodes && ev.p.src == r && ev.p.msg == "ka"
  }

  /** The probes from r that node n handles in a run, each delivery counted. */
  function Probes(c: Net, env: Env, evs: seq<NetEvent>, n: Remote, r: Remote): nat
    requires NetRuns(c, env, evs)
    decreases |evs|
  {
    if evs == [] then 0
    else (if IsProbeDelivery(c, evs[0], n, r) then 1 else 0) + Probes(NetStep(c, env, evs[0]), env, evs[1..], n, r)
  }

  lemma {:induction false} NoSuchText(sends: seq<Sent>, r: Remote, msg: string)
    requires forall i :: 0 <= i < |sends| ==> sends[i].msg != msg
    ensures Texts(sends, r, msg) == 0
  {
    if sends != [] {
      NoSuchText(sends[..|sends| - 1], r, msg);
    }
  }

  lemma AcksOfReaction(s: State, e: Event, r: Remote)
    requires (e.Fire? && e.i < |s.tasks|) || e.Receive? || (e.Say? && e.msg != "kack")
    ensures Texts(Reaction(s, e), r, "kack") == if e == Receive(r, "ka") then 1 else 0
  {
    if e.Receive? && e.msg == "ka" {
      var ack := Sent(RemoteKey(e.from), "kack");
      assert Reaction(s, e) == [ack] && [ack][..0] == [];
    } else {
      NoSuchText(Reaction(s, e), r, "kack");
    }
  }

  predicate SaysAck(ev: NetEvent, n: Remote) {
    ev.Act? && ev.n == n && ev.event == Say("kack")
  }

  /** What a step makes a node log holds one acknowledgement for a probe delivery and else none. */
  lemma AcksOfStep(c: Net, env: Env, ev: NetEvent, n: Remote, r: Remote)
    requires NetOk(c, env) && NetGuard(c, env, ev) && Runs(c, ev, n) && !SaysAck(ev, n)
    ensures Texts(Sends(c, env, ev), r, "kack") == if IsProbeDelivery(c, ev, n, r) then 1 else 0
  {
    SendsAre(c, env, ev);
    if ev.Act? {
      AcksOfReaction(c.nodes[n].s, ev.event, r);
    } else if ev.Deliver? {
      AcksOfReaction(c.nodes[n].s, Receive(ev.p.src, ev.p.msg), r);
    } else {
      NoSuchText(Sends(c, env, ev), r, "kack");
    }
  }

  /** Whatever the network loses or repeats, a node acknowledges each delivered probe once and nothing
      else: an acknowledgement is never answered by an acknowledgement. Nodes may come and go. */
  lemma {:induction false} NoAckStorm(c: Net, env: Env, evs: seq<NetEvent>, n: Remote, r: Remote)
    requires NetOk(c, env) && NetRuns(c, env, evs)
    ensures Acks(c, env, evs, n, r) == Probes(c, env, evs, n, r)
    decreases |evs|
  {
    if evs != [] {
      if Runs(c, evs[0], n) && !(evs[0].Act? && evs[0].event.Say?) {
        AcksOfStep(c, env, evs[0], n, r);
      }
      NetStepKeepsOk(c, env, evs[0]);
      NoAckStorm(NetStep(c, env, evs[0]), env, evs[1..], n, r);
    }
  }

  lemma {:induction false} TextsConcat(a: seq<Sent>, b: seq<Sent>, r: Remote, msg: string)
    ensures Texts(a + b, r, msg) == Texts(a, r, msg) + Texts(b, r, msg)
  {
    if b == [] {
      assert a + b == a;
    } else {
      assert (a + b)[..|a + b| - 1] == a + b[..|b| - 1];
      TextsConcat(a, b[..|b| - 1], r, msg);
    }
  }

  /** The node neither leaves nor is told by its user to say what an acknowledgement says. */
  predicate Unprompted(evs: seq<NetEvent>, n: Remote) {
    evs != [] ==> evs[0] != Leave(n) && !SaysAck(evs[0], n) && Unprompted(evs[1..], n)
  }

  lemma AcksLogged(c: Net, env: Env, ev: NetEvent, n: Remote, r: Remote)
    requires NetOk(c, env) && NetGuard(c, env, ev) && n in c.nodes && ev != Leave(n) && !SaysAck(ev, n)
    ensures var d := NetStep(c, env, ev);
            n in d.nodes && Texts(d.nodes[n].s.sent, r, "kack")
                            == Texts(c.nodes[n].s.sent, r, "kack") + if IsProbeDelivery(c, ev, n, r) then 1 else 0
  {
    LogGrows(c, env, ev, n);
    if Runs(c, ev, n) {
      AcksOfStep(c, env, ev, n, r);
      TextsConcat(c.nodes[n].s.sent, Sends(c, env, ev), r, "kack");
    } else {
      assert c.nodes[n].s.sent + [] == c.nodes[n].s.sent;
    }
  }

  /** In the log of a node that stays there are, after any run, as many more acknowledgements to r as probes
      from r were delivered to it. */
  lemma {:induction false} LogHoldsOneAckPerProbe(c: Net, env: Env, evs: seq<NetEvent>, n: Remote, r: Remote)
    requires NetOk(c, env) && NetRuns(c, env, evs) && n in c.nodes && Unprompted(evs, n)
    ensures n in AfterNet(c, env, evs).nodes
    ensures Texts(AfterNet(c, env, evs).nodes[n].s.sent, r, "kack")
            == Texts(c.nodes[n].s.sent, r, "kack") + Probes(c, env, evs, n, r)
    decreases |evs|
  {
    if evs != [] {
      AcksLogged(c, env, evs[0], n, r);
      NetStepKeepsOk(c, env, evs[0]);
      LogHoldsOneAckPerProbe(NetStep(c, env, evs[0]), env, evs[1..], n, r);
    }
  }
}
