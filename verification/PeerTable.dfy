/** The append-only slot array is a partial map from live keys to slots, whichever
    of the four keys a protocol looks its peers up by. */
module PeerTable {
  import opened Sockets

  /** Operations on a table. Add takes the slot contents the protocol fills in. */
  datatype Op = Lookup(k: Key) | Add(p: Peer) | Remove(k: Key)

  // ---------------------------------------------------------------- the slot array

  datatype Slots = Slots(protocol: Protocol, peers: seq<Peer>)

  /** One operation on the slots and what it reports: the slot found, filled or removed.
      Removing what is not found changes nothing here; the caller would crash. */
  function SlotStep(how: KeyKind, t: Slots, op: Op): (Slots, Option<nat>) {
    match op
    case Lookup(k) => (t, Find(how, t.peers, k))
    case Add(p) =>
      if |t.peers| >= PEERS_MAX_COUNT then (t, None)
      else (t.(peers := t.peers + [p]), Some(|t.peers|))
    case Remove(k) =>
      var found := Find(how, t.peers, k);
      if found.None? then (t, None)
      else (t.(peers := t.peers[found.value := Tombstone(t.protocol, t.peers[found.value])]), found)
  }

  function SlotRun(how: KeyKind, t: Slots, ops: seq<Op>): (Slots, seq<Option<nat>>)
    decreases |ops|
  {
    if ops == [] then (t, [])
    else
      var (t1, r) := SlotStep(how, t, ops[0]);
      var (t2, rs) := SlotRun(how, t1, ops[1..]);
      (t2, [r] + rs)
  }

  // ---------------------------------------------------------------- the map

  /** The simple form: a map of bounded total use, in which no slot is handed out twice. */
  datatype Book = Book(slot: map<Key, nat>, used: nat)

  function BookStep(how: KeyKind, b: Book, op: Op): (Book, Option<nat>) {
    match op
    case Lookup(k) => (b, if k in b.slot then Some(b.slot[k]) else None)
    case Add(p) =>
      if b.used >= PEERS_MAX_COUNT then (b, None)
      else (Book(b.slot[KeyOf(how, p) := b.used], b.used + 1), Some(b.used))
    case Remove(k) =>
      if k in b.slot then (b.(slot := b.slot - {k}), Some(b.slot[k])) else (b, None)
  }

  function BookRun(how: KeyKind, b: Book, ops: seq<Op>): (Book, seq<Option<nat>>)
    decreases |ops|
  {
    if ops == [] then (b, [])
    else
      var (b1, r) := BookStep(how, b, ops[0]);
      var (b2, rs) := BookRun(how, b1, ops[1..]);
      (b2, [r] + rs)
  }

  /** Keys are never tombstone values and are added only when absent. */
  predicate Legal(how: KeyKind, b: Book, op: Op) {
    match op
    case Lookup(k) => !Dead(k)
    case Add(p) => !Dead(KeyOf(how, p)) && KeyOf(how, p) !in b.slot
    case Remove(k) => !Dead(k)
  }

  predicate LegalRun(how: KeyKind, b: Book, ops: seq<Op>)
    decreases |ops|
  {
    ops != [] ==> Legal(how, b, ops[0]) && LegalRun(how, BookStep(how, b, ops[0]).0, ops[1..])
  }

  // ---------------------------------------------------------------- refinement

  ghost predicate Represents(how: KeyKind, peers: seq<Peer>, b: Book) {
    && b.used == |peers| <= PEERS_MAX_COUNT
    && (forall k :: k in b.slot ==>
          !Dead(k) && b.slot[k] < |peers| && KeyOf(how, peers[b.slot[k]]) == k)
    && (forall j :: 0 <= j < |peers| && !Dead(KeyOf(how, peers[j])) ==>
          KeyOf(how, peers[j]) in b.slot && b.slot[KeyOf(how, peers[j])] == j)
  }

  /** A removed peer is dead under all four keys at once, and keeps nothing else from being read but its tasks on UDP. */
  lemma TombstoneIsDead(how: KeyKind, protocol: Protocol, p: Peer)
    ensures Dead(KeyOf(how, Tombstone(protocol, p)))
    ensures var q := Tombstone(protocol, p);
            && q.fd == 0 && q.assocId == 0 && q.remote.port == 0 && q.path == ""
            && q.remote.addr == p.remote.addr && q.shouldReestablish == p.shouldReestablish
            && if protocol in {UDP, UDP_Lite} then q.ping.None? && q.commLost.None?
               else q.ping == p.ping && q.commLost == p.commLost
  {
    match how {
      case ByFd =>
      case ByAssoc =>
      case ByRemote =>
      case ByPath =>
    }
  }

  lemma StepRefines(how: KeyKind, t: Slots, b: Book, op: Op)
    requires Represents(how, t.peers, b) && Legal(how, b, op)
    ensures SlotStep(how, t, op).1 == BookStep(how, b, op).1
    ensures Represents(how, SlotStep(how, t, op).0.peers, BookStep(how, b, op).0)
    ensures SlotStep(how, t, op).0.protocol == t.protocol
  {
    match op {
      case Lookup(k) =>
      case Add(p) =>
      case Remove(k) =>
        var found := Find(how, t.peers, k);
        if found.Some? {
          TombstoneIsDead(how, t.protocol, t.peers[found.value]);
        }
    }
  }

  /** Over any operation sequence the slots answer exactly as the map does. */
  lemma {:induction false} SlotsRefineMap(how: KeyKind, t: Slots, b: Book, ops: seq<Op>)
    requires Represents(how, t.peers, b) && LegalRun(how, b, ops)
    ensures SlotRun(how, t, ops).1 == BookRun(how, b, ops).1
    ensures Represents(how, SlotRun(how, t, ops).0.peers, BookRun(how, b, ops).0)
    decreases |ops|
  {
    if ops != [] {
      StepRefines(how, t, b, ops[0]);
      SlotsRefineMap(how, SlotStep(how, t, ops[0]).0, BookStep(how, b, ops[0]).0, ops[1..]);
    }
  }

  /** A slot is used once: over any operations at all, a dead slot stays dead and a live slot
      keeps its contents until it is removed. */
  lemma {:induction false} SlotsAreNeverReused(how: KeyKind, t: Slots, ops: seq<Op>, j: nat)
    requires j < |t.peers|
    ensures var end := SlotRun(how, t, ops).0.peers;
            |end| >= |t.peers| && (end[j] == t.peers[j] || Dead(KeyOf(how, end[j])))
    ensures Dead(KeyOf(how, t.peers[j])) ==> Dead(KeyOf(how, SlotRun(how, t, ops).0.peers[j]))
    decreases |ops|
  {
    if ops != [] {
      TombstoneIsDead(how, t.protocol, t.peers[j]);
      SlotsAreNeverReused(how, SlotStep(how, t, ops[0]).0, ops[1..], j);
    }
  }

  // ---------------------------------------------------------------- sending

  /** The send loops reach each live key exactly once, and nothing else. */
  lemma {:induction false} EachLiveKeyOnce(how: KeyKind, peers: seq<Peer>, b: Book)
    requires Represents(how, peers, b)
    ensures multiset(Targets(how, peers)) == multiset(b.slot.Keys)
  {
    TargetsAreLiveKeys(how, peers);
    assert b.slot.Keys == LiveKeys(how, peers);
  }

  ghost function LiveKeys(how: KeyKind, peers: seq<Peer>): set<Key> {
    set j | 0 <= j < |peers| && !Dead(KeyOf(how, peers[j])) :: KeyOf(how, peers[j])
  }

  predicate KeysDistinct(how: KeyKind, peers: seq<Peer>) {
    forall i, j :: 0 <= i < j < |peers| && !Dead(KeyOf(how, peers[i])) ==> KeyOf(how, peers[i]) != KeyOf(how, peers[j])
  }

  /** The map that can be read off the slots. */
  ghost function BookOf(how: KeyKind, peers: seq<Peer>): Book {
    Book(map k | k in LiveKeys(how, peers) :: FindFrom(how, peers, k, 0).value, |peers|)
  }

  /** The slots are a map if and only if their live keys are distinct. */
  lemma SlotsAreMapExactly(how: KeyKind, peers: seq<Peer>)
    requires |peers| <= PEERS_MAX_COUNT
    ensures Represents(how, peers, BookOf(how, peers)) <==> KeysDistinct(how, peers)
  {
    var b := BookOf(how, peers);
    forall j | 0 <= j < |peers| && !Dead(KeyOf(how, peers[j]))
      ensures KeyOf(how, peers[j]) in b.slot && b.slot[KeyOf(how, peers[j])] <= j
    {
      assert KeyOf(how, peers[j]) in LiveKeys(how, peers);
    }
  }

  lemma {:induction false} TargetsAreLiveKeys(how: KeyKind, peers: seq<Peer>)
    requires KeysDistinct(how, peers)
    ensures multiset(Targets(how, peers)) == multiset(LiveKeys(how, peers))
  {
    if peers != [] {
      var front, k := peers[..|peers| - 1], KeyOf(how, peers[|peers| - 1]);
      TargetsAreLiveKeys(how, front);
      LiveKeysOfLast(how, peers);
      assert k in LiveKeys(how, front) ==> Dead(k);
    }
  }

  lemma LiveKeysOfLast(how: KeyKind, peers: seq<Peer>)
    requires peers != []
    ensures var k := KeyOf(how, peers[|peers| - 1]);
            LiveKeys(how, peers) == LiveKeys(how, peers[..|peers| - 1]) + if Dead(k) then {} else {k}
  {
    var front := peers[..|peers| - 1];
    forall k | k in LiveKeys(how, peers)
      ensures k in LiveKeys(how, front) || (k == KeyOf(how, peers[|peers| - 1]) && !Dead(k))
    {
      var j :| 0 <= j < |peers| && !Dead(KeyOf(how, peers[j])) && KeyOf(how, peers[j]) == k;
      assert j < |front| ==> front[j] == peers[j];
    }
    forall k | k in LiveKeys(how, front)
      ensures k in LiveKeys(how, peers)
    {
      var j :| 0 <= j < |front| && !Dead(KeyOf(how, front[j])) && KeyOf(how, front[j]) == k;
      assert front[j] == peers[j];
    }
  }
}
