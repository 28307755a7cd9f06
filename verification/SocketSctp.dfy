/** SCTP associations: a table keyed by association id, driven by the kernel's notifications. */
module SocketSctp {
  import opened Sockets
  import opened Accounts
  import opened SocketCleanUp

  // ---------------------------------------------------------------- handlers as functions

  /** The states of an association change (section 6.1.1 of RFC 6458). */
  datatype AssocState = SCTP_COMM_UP | SCTP_COMM_LOST | SCTP_RESTART | SCTP_SHUTDOWN_COMP | SCTP_CANT_STR_ASSOC

  datatype Notification = AssocChange(state: AssocState, assocId: int) | OtherNotification

  function FindAssoc(s: State, assocId: int): (r: Option<nat>)
    ensures r.Some? ==> r.value < |s.peers| && s.peers[r.value].assocId == assocId
    ensures r.None? ==> forall j :: 0 <= j < |s.peers| ==> s.peers[j].assocId != assocId
  {
    var r := Find(ByAssoc, s.peers, AssocKey(assocId));
    assert forall j :: 0 <= j < |s.peers| ==> KeyOf(ByAssoc, s.peers[j]) == AssocKey(s.peers[j].assocId);
    r
  }

  /** fd: the descriptor the kernel opens for the association, if it is asked to. */
  function PeelOff(s: State, assocId: int, fd: int): State {
    if Full(s) then s
    else s.(peers := s.peers + [BLANK.(assocId := assocId, fd := fd)], open := s.open + {fd})
  }

  function RemoveAssoc(s: State, assocId: int): Outcome {
    RemoveFound(s, FindAssoc(s, assocId))
  }

  function HandleNotification(s: State, from: Remote, n: Notification, fd: int, now: int): Outcome {
    if n.OtherNotification? then Done(s)
    else match n.state
      case SCTP_COMM_UP => Done(PeelOff(s, n.assocId, fd))
      case SCTP_CANT_STR_ASSOC => Done(AddTask(s, Reestablish, from, now))
      case SCTP_SHUTDOWN_COMP => RemoveAssoc(s, n.assocId)
      case SCTP_COMM_LOST =>
        var o := RemoveAssoc(s, n.assocId);
        if o.Done? then Done(AddTask(o.state, Reestablish, from, now)) else o
      case SCTP_RESTART => Done(s)
  }

  // ---------------------------------------------------------------- handlers as methods

  method PeelOffAssoc(socket: Socket, assocId: int, fd: int)
    requires socket.Valid()
    modifies socket, socket.peers
    ensures socket.Valid() && socket.View() == PeelOff(old(socket.View()), assocId, fd)
  {
    if socket.peerCount >= PEERS_MAX_COUNT {
      return;
    }
    ghost var before := socket.View();
    socket.open := socket.open + {fd};
    socket.peers[socket.peerCount] := socket.peers[socket.peerCount].(assocId := assocId);
    socket.peers[socket.peerCount] := socket.peers[socket.peerCount].(fd := fd);
    socket.peerCount := socket.peerCount + 1;
    assert socket.View().peers == PeelOff(before, assocId, fd).peers;
  }

  method RemoveAssocPeer(socket: Socket, assocId: int) returns (crash: bool)
    requires socket.Valid() && FdsOwned(socket.View())
    modifies socket, socket.peers
    ensures socket.Valid()
    ensures crash <==> RemoveAssoc(old(socket.View()), assocId).NullPeer?
    ensures !crash ==> RemoveAssoc(old(socket.View()), assocId) == Done(socket.View())
  {
    var found := socket.FindPeer(ByAssoc, AssocKey(assocId));
    if found.None? {
      return true;
    }
    assert socket.View().peers[found.value] == socket.peers[found.value];
    if socket.peers[found.value].fd != 0 {
      LiveFdIsOpen(socket.View(), found.value);
    }
    socket.RemovePeer(found.value);
    return false;
  }

  method HandleNotificationSctp(socket: Socket, from: Remote, n: Notification, fd: int, now: int) returns (crash: bool)
    requires socket.Valid() && FdsOwned(socket.View())
    modifies socket, socket.peers
    ensures socket.Valid()
    ensures crash <==> HandleNotification(old(socket.View()), from, n, fd, now).NullPeer?
    ensures !crash ==> HandleNotification(old(socket.View()), from, n, fd, now) == Done(socket.View())
  {
    crash := false;
    if n.AssocChange? {
      match n.state {
        case SCTP_COMM_UP => PeelOffAssoc(socket, n.assocId, fd);
        case SCTP_CANT_STR_ASSOC => socket.ScheduleReestablishment(from, now);
        case SCTP_SHUTDOWN_COMP => crash := RemoveAssocPeer(socket, n.assocId);
        case SCTP_COMM_LOST =>
          crash := RemoveAssocPeer(socket, n.assocId);
          if !crash {
            socket.ScheduleReestablishment(from, now);
          }
        case SCTP_RESTART =>
      }
    }
  }

  // ---------------------------------------------------------------- runs

  datatype Event = Notify(from: Remote, n: Notification, fd: int) | Reconnect(i: nat)

  /** What the kernel has reported: the associations that came up and went down, of those up the first
      ten. */
  datatype Log = Log(up: set<int>, first: set<int>, down: set<int>)

  const EMPTY_LOG := Log({}, {}, {})

  predicate IsDown(e: Event) {
    e.Notify? && e.n.AssocChange? && (e.n.state == SCTP_SHUTDOWN_COMP || e.n.state == SCTP_COMM_LOST)
  }

  predicate IsUp(e: Event) {
    e.Notify? && e.n.AssocChange? && e.n.state == SCTP_COMM_UP
  }

  predicate IsFailure(e: Event) {
    e.Notify? && e.n.AssocChange? && (e.n.state == SCTP_CANT_STR_ASSOC || e.n.state == SCTP_COMM_LOST)
  }

  function Enter(l: Log, e: Event): Log {
    var l1 := if IsUp(e) then l.(up := l.up + {e.n.assocId},
                                 first := if |l.up| < PEERS_MAX_COUNT then l.first + {e.n.assocId} else l.first) else l;
    if IsDown(e) then l1.(down := l1.down + {e.n.assocId}) else l1
  }

  /** Each association comes up at most once and goes down at most once, after it came up. */
  predicate Guard(s: State, l: Log, e: Event) {
    && (IsUp(e) ==> e.n.assocId != 0 && e.n.assocId !in l.up && e.fd != 0 && e.fd !in s.open)
    && (IsDown(e) ==> e.n.assocId in l.up && e.n.assocId !in l.down)
    && (e.Reconnect? ==> e.i < |s.tasks| && s.tasks[e.i].Enabled())
  }

  /** A reconnect goes through the main descriptor and leaves the table alone. */
  function Step(s: State, e: Event, now: int): Outcome
    requires e.Reconnect? ==> e.i < |s.tasks|
  {
    match e
    case Notify(from, n, fd) => HandleNotification(s, from, n, fd, now)
    case Reconnect(i) => Done(s.(tasks := s.tasks[i := Fired(s.tasks[i], FromDue, now)]))
  }

  datatype Timed = At(now: int, event: Event)

  predicate Runs(s: State, l: Log, evs: seq<Timed>)
    decreases |evs|
  {
    evs != [] ==>
      && Guard(s, l, evs[0].event)
      && Step(s, evs[0].event, evs[0].now).Done?
      && Runs(Step(s, evs[0].event, evs[0].now).state, Enter(l, evs[0].event), evs[1..])
  }

  function After(s: State, l: Log, evs: seq<Timed>): (State, Log)
    requires Runs(s, l, evs)
    decreases |evs|
  {
    if evs == [] then (s, l)
    else After(Step(s, evs[0].event, evs[0].now).state, Enter(l, evs[0].event), evs[1..])
  }

  // ---------------------------------------------------------------- refinement

  function LiveAssocs(peers: seq<Peer>): set<int> {
    set j | 0 <= j < |peers| && peers[j].assocId != 0 :: peers[j].assocId
  }

  /** The table against the log. */
  ghost predicate SctpInv(s: State, l: Log) {
    && s.protocol == SCTP && s.fd != 0 && FdsOwned(s)
    && |s.peers| == (if |l.up| < PEERS_MAX_COUNT then |l.up| else PEERS_MAX_COUNT)
    && (forall j :: 0 <= j < |s.peers| ==> (s.peers[j].assocId != 0 <==> s.peers[j].fd != 0))
    && (forall i, j :: 0 <= i < j < |s.peers| && s.peers[i].assocId != 0 ==> s.peers[i].assocId != s.peers[j].assocId)
    && (forall i :: 0 <= i < |s.tasks| ==> s.tasks[i].kind == Reestablish && s.tasks[i].left <= 1 && !s.tasks[i].cancelled)
    && LiveAssocs(s.peers) == l.first - l.down
    && l.first <= l.up && (|l.up| <= PEERS_MAX_COUNT ==> l.first == l.up)
    && 0 !in l.up && l.down <= l.up
  }

  /** The connection failures that a run reports for a remote, and the reconnects that it makes to it. */
  function Failures(evs: seq<Timed>, who: Who): nat {
    if evs == [] then 0
    else (if IsFailure(evs[0].event) && who.Is(evs[0].event.from) then 1 else 0) + Failures(evs[1..], who)
  }

  function Reconnects(s: State, l: Log, evs: seq<Timed>, who: Who): nat
    requires Runs(s, l, evs)
    decreases |evs|
  {
    if evs == [] then 0
    else
      var e := evs[0].event;
      (if e.Reconnect? && who.Is(s.tasks[e.i].remote) then 1 else 0)
      + Reconnects(Step(s, e, evs[0].now).state, Enter(l, e), evs[1..], who)
  }

  lemma InitialIsOk(fd: int)
    requires fd != 0
    ensures SctpInv(Initial(SCTP, fd), EMPTY_LOG)
  {
    assert LiveAssocs([]) == {};
  }

  lemma LiveAssocIsFound(s: State, l: Log, a: int)
    requires SctpInv(s, l) && a in l.up
    ensures FindAssoc(s, a).Some? <==> a in l.first - l.down
  {
    EveryAssocIsLive(s.peers);
    if a in l.first - l.down {
      assert a in LiveAssocs(s.peers);
    }
  }

  lemma EveryAssocIsLive(peers: seq<Peer>)
    ensures forall j :: 0 <= j < |peers| && peers[j].assocId != 0 ==> peers[j].assocId in LiveAssocs(peers)
  {
  }

  /** A correct kernel makes the socket crash exactly when it reports the end of an association that
      found the table full when it came up. */
  lemma CrashesExactlyOnRefusedAssociation(s: State, l: Log, e: Event, now: int)
    requires SctpInv(s, l) && Guard(s, l, e)
    ensures Step(s, e, now).NullPeer? <==> IsDown(e) && e.n.assocId !in l.first
    ensures !Step(s, e, now).NullTask?
    ensures |l.up| <= PEERS_MAX_COUNT ==> Step(s, e, now).Done?
  {
    if IsDown(e) {
      LiveAssocIsFound(s, l, e.n.assocId);
    }
  }

  lemma LiveAssocsGrow(peers: seq<Peer>, p: Peer)
    ensures LiveAssocs(peers + [p]) == LiveAssocs(peers) + if p.assocId == 0 then {} else {p.assocId}
  {
    var after := peers + [p];
    assert forall j :: 0 <= j < |peers| ==> after[j] == peers[j];
    assert p.assocId != 0 ==> after[|peers|].assocId in LiveAssocs(after);
    forall a | a in LiveAssocs(peers)
      ensures a in LiveAssocs(after)
    {
      var j :| 0 <= j < |peers| && peers[j].assocId == a;
      assert after[j].assocId == a;
    }
  }

  /** An association that finds a slot. */
  lemma StoredKeepsTable(s: State, l: Log, a: int, fd: int)
    requires SctpInv(s, l) && !Full(s) && a != 0 && a !in l.up && fd != 0 && fd !in s.open
    ensures var s' := PeelOff(s, a, fd);
            && FdsOwned(s') && LiveAssocs(s'.peers) == LiveAssocs(s.peers) + {a}
            && (forall j :: 0 <= j < |s'.peers| ==> (s'.peers[j].assocId != 0 <==> s'.peers[j].fd != 0))
            && (forall i, j :: 0 <= i < j < |s'.peers| && s'.peers[i].assocId != 0 ==> s'.peers[i].assocId != s'.peers[j].assocId)
  {
    var p, s' := BLANK.(assocId := a, fd := fd), PeelOff(s, a, fd);
    AppendKeepsFdsOwned(s, p);
    LiveAssocsGrow(s.peers, p);
    EveryAssocIsLive(s.peers);
    assert forall j :: 0 <= j < |s.peers| ==> s'.peers[j] == s.peers[j];
  }

  lemma UpKeepsInv(s: State, l: Log, e: Event, now: int)
    requires SctpInv(s, l) && Guard(s, l, e) && IsUp(e)
    ensures SctpInv(PeelOff(s, e.n.assocId, e.fd), Enter(l, e))
  {
    var a := e.n.assocId;
    assert |l.up + {a}| == |l.up| + 1;
    if !Full(s) {
      StoredKeepsTable(s, l, a, e.fd);
      assert l.first + {a} - l.down == l.first - l.down + {a};
    }
  }

  lemma RemovalKeepsTable(s: State, l: Log, a: int)
    requires SctpInv(s, l) && a in l.up && a !in l.down && RemoveAssoc(s, a).Done?
    ensures SctpInv(RemoveAssoc(s, a).state, l.(down := l.down + {a}))
  {
    var k := FindAssoc(s, a).value;
    var s' := RemoveAssoc(s, a).state;
    RemovalKeepsFdsOwned(s, k);
    assert forall j :: 0 <= j < |s.peers| && j != k ==> s'.peers[j] == s.peers[j];
    assert LiveAssocs(s'.peers) == LiveAssocs(s.peers) - {a} by {
      forall b | b in LiveAssocs(s.peers) && b != a
        ensures b in LiveAssocs(s'.peers)
      {
        var j :| 0 <= j < |s.peers| && s.peers[j].assocId == b;
        assert s'.peers[j].assocId == b;
      }
    }
    assert l.first - (l.down + {a}) == l.first - l.down - {a};
  }

  lemma TaskKeepsInv(s: State, l: Log, from: Remote, now: int)
    requires SctpInv(s, l)
    ensures SctpInv(AddTask(s, Reestablish, from, now), l)
  {
    assert FdsOwned(AddTask(s, Reestablish, from, now));
  }

  lemma StepKeepsInv(s: State, l: Log, e: Event, now: int)
    requires SctpInv(s, l) && Guard(s, l, e) && Step(s, e, now).Done?
    ensures SctpInv(Step(s, e, now).state, Enter(l, e))
  {
    match e {
      case Reconnect(i) =>
        assert FdsOwned(Step(s, e, now).state);
      case Notify(from, n, fd) =>
        if IsUp(e) {
          UpKeepsInv(s, l, e, now);
        } else if IsDown(e) {
          RemovalKeepsTable(s, l, n.assocId);
          TaskKeepsInv(RemoveAssoc(s, n.assocId).state, l.(down := l.down + {n.assocId}), from, now);
        } else if IsFailure(e) {
          TaskKeepsInv(s, l, from, now);
        }
    }
  }

  /** Each failure adds one reconnect, to the address it was reported for and due 5000 later; a reconnect that is made
      is used up; nothing else touches the tasks. */
  lemma ReconnectIsOwed(s: State, l: Log, e: Event, now: int)
    requires SctpInv(s, l) && Guard(s, l, e) && Step(s, e, now).Done?
    ensures var tasks := Step(s, e, now).state.tasks;
            if IsFailure(e) then |tasks| == |s.tasks| + 1 && tasks[..|s.tasks|] == s.tasks && IsReconnect(tasks[|s.tasks|], e.from, now)
            else if e.Reconnect? then
              && |tasks| == |s.tasks| && !tasks[e.i].Enabled()
              && forall i :: 0 <= i < |tasks| && i != e.i ==> tasks[i] == s.tasks[i]
            else tasks == s.tasks
  {
  }

  lemma StepOwes(s: State, l: Log, e: Event, now: int, who: Who)
    requires SctpInv(s, l) && Guard(s, l, e) && Step(s, e, now).Done?
    ensures PendingCount(Step(s, e, now).state, who) + (if e.Reconnect? && who.Is(s.tasks[e.i].remote) then 1 else 0)
            == PendingCount(s, who) + if IsFailure(e) && who.Is(e.from) then 1 else 0
  {
    ReconnectIsOwed(s, l, e, now);
    var tasks := Step(s, e, now).state.tasks;
    if IsFailure(e) {
      assert tasks == s.tasks + [tasks[|s.tasks|]];
      SumAppend(s.tasks, tasks[|s.tasks|], PendingAmong(who));
    } else if e.Reconnect? {
      assert tasks == s.tasks[e.i := tasks[e.i]];
      SumUpdate(s.tasks, e.i, tasks[e.i], PendingAmong(who));
    }
  }

  lemma {:induction false} RunsKeepInv(s: State, l: Log, evs: seq<Timed>)
    requires SctpInv(s, l) && Runs(s, l, evs)
    ensures SctpInv(After(s, l, evs).0, After(s, l, evs).1)
    decreases |evs|
  {
    if evs != [] {
      StepKeepsInv(s, l, evs[0].event, evs[0].now);
      RunsKeepInv(Step(s, evs[0].event, evs[0].now).state, Enter(l, evs[0].event), evs[1..]);
    }
  }

  lemma {:induction false} RunsOwe(s: State, l: Log, evs: seq<Timed>, who: Who)
    requires SctpInv(s, l) && Runs(s, l, evs)
    ensures PendingCount(After(s, l, evs).0, who) + Reconnects(s, l, evs, who) == PendingCount(s, who) + Failures(evs, who)
    decreases |evs|
  {
    if evs != [] {
      StepOwes(s, l, evs[0].event, evs[0].now, who);
      StepKeepsInv(s, l, evs[0].event, evs[0].now);
      RunsOwe(Step(s, evs[0].event, evs[0].now).state, Enter(l, evs[0].event), evs[1..], who);
    }
  }

  /** For any notification run: the live association ids are those of the first ten up that are not yet
      down, which is all that are up when no more than ten came up; per remote and in all every failure has its
      reconnect, made or pending; and the open descriptors are the main one and those of the live slots. */
  lemma NotificationsAreTracked(fd: int, evs: seq<Timed>, who: Who)
    requires fd != 0 && Runs(Initial(SCTP, fd), EMPTY_LOG, evs)
    ensures var (s, l) := After(Initial(SCTP, fd), EMPTY_LOG, evs);
            && LiveAssocs(s.peers) == l.first - l.down
            && (|l.up| <= 10 ==> LiveAssocs(s.peers) == l.up - l.down)
            && PendingCount(s, who) + Reconnects(Initial(SCTP, fd), EMPTY_LOG, evs, who) == Failures(evs, who)
            && s.open == {s.fd} + LiveFds(s.peers) && CleanUp(s).open == {}
            && (forall j :: 0 <= j < |s.peers| ==> (s.peers[j].assocId != 0 <==> s.peers[j].fd != 0))
  {
    InitialIsOk(fd);
    RunsKeepInv(Initial(SCTP, fd), EMPTY_LOG, evs);
    RunsOwe(Initial(SCTP, fd), EMPTY_LOG, evs, who);
  }
}
