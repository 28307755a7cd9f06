/** Socket addresses in memory: records of two sizes packed one after another, and the walk that finds
    each record's size from the record itself. The layout is that of the address arrays of
    sctp_bindx and sctp_getladdrs (sections 9.1 and 9.5 of RFC 6458).

    Text is turned into address bytes and back by a pair of functions that stands for inet_pton and
    inet_ntop. */
module IpSockets {
  import opened Sockets

  type byte = b: int | 0 <= b < 256
  type Port = p: int | 0 <= p < 0x1_0000

  const AF_UNIX: Port := 1
  const AF_INET: Port := 2
  const AF_INET6: Port := 10

  datatype IPSocket = IPSocket(addr: string, port: Port, family: Port)

  datatype Inet = Inet(pton: (Port, string) -> Option<seq<byte>>, ntop: (Port, seq<byte>) -> string)

  predicate IsAddress(family: Port, bytes: seq<byte>) {
    (family == AF_INET && |bytes| == 4) || (family == AF_INET6 && |bytes| == 16)
  }

  /** Parsing gives the bytes of an address of the family; parsing what was printed gives the bytes back. */
  ghost predicate Lawful(inet: Inet) {
    && (forall f, text :: inet.pton(f, text).Some? ==> IsAddress(f, inet.pton(f, text).value))
    && (forall f, bytes :: IsAddress(f, bytes) ==> inet.pton(f, inet.ntop(f, bytes)) == Some(bytes))
  }

  function DetectFamily(inet: Inet, addr: string): Port {
    if inet.pton(AF_INET, addr).Some? then AF_INET
    else if inet.pton(AF_INET6, addr).Some? then AF_INET6
    else AF_UNIX
  }

  function CreateIPSocket(inet: Inet, addr: string, port: Port): IPSocket {
    IPSocket(addr, port, DetectFamily(inet, addr))
  }

  predicate IsIPv6(x: IPSocket) {
    x.family == AF_INET6
  }

  const SIZEOF_SOCKADDR_IN: nat := 16
  const SIZEOF_SOCKADDR_IN6: nat := 28

  function SizeofSockaddr(x: IPSocket): nat {
    if IsIPv6(x) then SIZEOF_SOCKADDR_IN6 else SIZEOF_SOCKADDR_IN
  }

  // ---------------------------------------------------------------- one record

  /** The family is stored as the host stores it, low byte first; the port in network order. */
  function Host16(n: Port): seq<byte> { [n % 256, n / 256] }
  function Net16(n: Port): seq<byte> { [n / 256, n % 256] }

  function FromHost16(lo: byte, hi: byte): Port { hi * 256 + lo }
  function FromNet16(hi: byte, lo: byte): Port { hi * 256 + lo }

  function Zeros(n: nat): (r: seq<byte>)
    ensures |r| == n
  {
    seq(n, _ => 0)
  }

  /** None when the address does not parse; the program ends there in an error check. */
  function Record(inet: Inet, x: IPSocket): Option<seq<byte>> {
    var parsed := inet.pton(x.family, x.addr);
    if parsed.None? then None
    else if IsIPv6(x) then Some(Host16(x.family) + Net16(x.port) + Zeros(4) + parsed.value + Zeros(4))
    else Some(Host16(x.family) + Net16(x.port) + parsed.value + Zeros(8))
  }

  function FamilyAt(buf: seq<byte>, off: nat): Port
    requires off + 2 <= |buf|
  {
    FromHost16(buf[off], buf[off + 1])
  }

  predicate Readable(buf: seq<byte>, off: nat) {
    off + SIZEOF_SOCKADDR_IN <= |buf| && (FamilyAt(buf, off) == AF_INET6 ==> off + SIZEOF_SOCKADDR_IN6 <= |buf|)
  }

  function Decode(inet: Inet, buf: seq<byte>, off: nat): IPSocket
    requires Readable(buf, off)
  {
    var family := FamilyAt(buf, off);
    var port := FromNet16(buf[off + 2], buf[off + 3]);
    var bytes := if family == AF_INET6 then buf[off + 8..off + 24] else buf[off + 4..off + 8];
    IPSocket(inet.ntop(family, bytes), port, family)
  }

  // ---------------------------------------------------------------- many records

  function Pack(inet: Inet, xs: seq<IPSocket>): Option<seq<byte>> {
    if xs == [] then Some([])
    else
      var first, rest := Record(inet, xs[0]), Pack(inet, xs[1..]);
      if first.Some? && rest.Some? then Some(first.value + rest.value) else None
  }

  predicate Walkable(inet: Inet, buf: seq<byte>, off: nat, count: nat)
    decreases count
  {
    count > 0 ==>
      Readable(buf, off) && Walkable(inet, buf, off + SizeofSockaddr(Decode(inet, buf, off)), count - 1)
  }

  /** The sockets visited, each with the offset it was read at. */
  function Walk(inet: Inet, buf: seq<byte>, off: nat, count: nat): seq<(nat, IPSocket)>
    requires Walkable(inet, buf, off, count)
    decreases count
  {
    if count == 0 then []
    else
      var x := Decode(inet, buf, off);
      [(off, x)] + Walk(inet, buf, off + SizeofSockaddr(x), count - 1)
  }

  function WalkEnd(inet: Inet, buf: seq<byte>, off: nat, count: nat): nat
    requires Walkable(inet, buf, off, count)
    decreases count
  {
    if count == 0 then off
    else WalkEnd(inet, buf, off + SizeofSockaddr(Decode(inet, buf, off)), count - 1)
  }

  // ---------------------------------------------------------------- the loops

  lemma {:induction false} PackAppend(inet: Inet, xs: seq<IPSocket>, x: IPSocket)
    ensures var all, front, last := Pack(inet, xs + [x]), Pack(inet, xs), Record(inet, x);
            if front.Some? && last.Some? then all == Some(front.value + last.value) else all.None?
  {
    if xs == [] {
      assert xs + [x] == [x] && [x][1..] == [];
      var last := Record(inet, x);
      if last.Some? {
        assert last.value + [] == last.value == [] + last.value;
      }
    } else {
      assert (xs + [x])[1..] == xs[1..] + [x];
      PackAppend(inet, xs[1..], x);
      var a, b, c := Record(inet, xs[0]), Pack(inet, xs[1..]), Record(inet, x);
      if a.Some? && b.Some? && c.Some? {
        assert a.value + (b.value + c.value) == a.value + b.value + c.value;
      }
    }
  }

  lemma {:induction false} PackFailsLater(inet: Inet, xs: seq<IPSocket>, i: nat)
    requires i <= |xs| && Pack(inet, xs[..i]).None?
    ensures Pack(inet, xs).None?
    decreases |xs| - i
  {
    if i == |xs| {
      assert xs[..i] == xs;
    } else {
      assert xs[..i + 1] == xs[..i] + [xs[i]];
      PackAppend(inet, xs[..i], xs[i]);
      PackFailsLater(inet, xs, i + 1);
    }
  }

  lemma RecordSize(inet: Inet, x: IPSocket)
    requires Lawful(inet) && Record(inet, x).Some?
    ensures |Record(inet, x).value| == SizeofSockaddr(x)
  {
    assert IsAddress(x.family, inet.pton(x.family, x.addr).value);
  }

  /** The buffer grows by the size of each record, and the record is copied to its end. */
  method IpSocketsToSockaddrs(inet: Inet, sockets: seq<IPSocket>) returns (r: Option<seq<byte>>)
    requires Lawful(inet)
    ensures r == Pack(inet, sockets)
  {
    var buf: seq<byte> := [];
    var i := 0;
    while i < |sockets|
      invariant i <= |sockets| && Pack(inet, sockets[..i]) == Some(buf)
    {
      assert sockets[..i + 1] == sockets[..i] + [sockets[i]];
      PackAppend(inet, sockets[..i], sockets[i]);
      var storage := Record(inet, sockets[i]);
      if storage.None? {
        PackFailsLater(inet, sockets, i + 1);
        return None;
      }
      RecordSize(inet, sockets[i]);
      assert storage.value[..SizeofSockaddr(sockets[i])] == storage.value;
      buf := buf + storage.value[..SizeofSockaddr(sockets[i])];
      i := i + 1;
    }
    assert sockets[..i] == sockets;
    return Some(buf);
  }

  /** One record further. */
  lemma WalkStep(inet: Inet, buf: seq<byte>, off: nat, count: nat, logged: seq<(nat, IPSocket)>)
    requires Walkable(inet, buf, off, count) && count > 0
    ensures Readable(buf, off)
    ensures var x := Decode(inet, buf, off);
            var next := off + SizeofSockaddr(x);
            && Walkable(inet, buf, next, count - 1)
            && logged + Walk(inet, buf, off, count) == logged + [(off, x)] + Walk(inet, buf, next, count - 1)
            && WalkEnd(inet, buf, off, count) == WalkEnd(inet, buf, next, count - 1)
  {
    var x := Decode(inet, buf, off);
    var rest := Walk(inet, buf, off + SizeofSockaddr(x), count - 1);
    assert logged + ([(off, x)] + rest) == logged + [(off, x)] + rest;
  }

  method LogAddrs(inet: Inet, saddrs: seq<byte>, count: nat) returns (logged: seq<(nat, IPSocket)>, current: nat)
    requires Walkable(inet, saddrs, 0, count)
    ensures logged == Walk(inet, saddrs, 0, count)
    ensures current == WalkEnd(inet, saddrs, 0, count)
  {
    logged, current := [], 0;
    var i := 0;
    while i < count
      invariant i <= count && Walkable(inet, saddrs, current, count - i)
      invariant logged + Walk(inet, saddrs, current, count - i) == Walk(inet, saddrs, 0, count)
      invariant WalkEnd(inet, saddrs, current, count - i) == WalkEnd(inet, saddrs, 0, count)
    {
      WalkStep(inet, saddrs, current, count - i, logged);
      var x := Decode(inet, saddrs, current);
      logged := logged + [(current, x)];
      current := current + SizeofSockaddr(x);
      i := i + 1;
    }
  }

  // ---------------------------------------------------------------- round trip

  /** The same socket with its address in the form in which addresses are printed. */
  function Canonical(inet: Inet, x: IPSocket): IPSocket
    requires inet.pton(x.family, x.addr).Some?
  {
    x.(addr := inet.ntop(x.family, inet.pton(x.family, x.addr).value))
  }

  lemma CanonicalIsSameAddress(inet: Inet, x: IPSocket)
    requires Lawful(inet) && inet.pton(x.family, x.addr).Some?
    ensures inet.pton(x.family, Canonical(inet, x).addr) == inet.pton(x.family, x.addr)
    ensures Canonical(inet, Canonical(inet, x)) == Canonical(inet, x)
  {
    assert IsAddress(x.family, inet.pton(x.family, x.addr).value);
  }

  /** A socket made from text has that text and port, and the first of the families 2 (AF_INET) and 10 (AF_INET6) as which
      the text parses, else 1 (AF_UNIX); it can be packed exactly when the text is an IPv4 or IPv6 address. */
  lemma CreatedSocketsPack(inet: Inet, addr: string, port: Port)
    requires Lawful(inet)
    ensures var x := CreateIPSocket(inet, addr, port);
            && x.addr == addr && x.port == port
            && x.family == (if inet.pton(2, addr).Some? then 2 else if inet.pton(10, addr).Some? then 10 else 1)
            && (Record(inet, x).Some? <==> inet.pton(2, addr).Some? || inet.pton(10, addr).Some?)
  {
  }

  // ---------------------------------------------------------------- the bytes

  /** The bytes of an IPv4 record are 16: the family, low byte first; the port, high byte first; the four address bytes at
      4; zeros. Those of an IPv6 record are 28: family and port as before; four zeros of flow information; the sixteen
      address bytes at 8; four zeros of scope. */
  ghost predicate HasLayout(rec: seq<byte>, x: IPSocket, bytes: seq<byte>) {
    && |rec| == (if x.family == 10 then 28 else 16)
    && rec[0] as int + 256 * rec[1] as int == x.family && rec[2] as int * 256 + rec[3] as int == x.port
    && if x.family == 10
       then |bytes| == 16 && (forall k :: 0 <= k < 16 ==> rec[8 + k] == bytes[k])
            && (forall k :: 4 <= k < 8 ==> rec[k] == 0) && (forall k :: 24 <= k < 28 ==> rec[k] == 0)
       else |bytes| == 4 && (forall k :: 0 <= k < 4 ==> rec[4 + k] == bytes[k])
            && (forall k :: 8 <= k < 16 ==> rec[k] == 0)
  }

  lemma RecordHasLayout(inet: Inet, x: IPSocket)
    requires Lawful(inet)
    ensures Record(inet, x).Some? <==> inet.pton(x.family, x.addr).Some?
    ensures Record(inet, x).Some? ==> HasLayout(Record(inet, x).value, x, inet.pton(x.family, x.addr).value)
  {
    if Record(inet, x).Some? {
      var rec, bytes := Record(inet, x).value, inet.pton(x.family, x.addr).value;
      assert IsAddress(x.family, bytes);
      if IsIPv6(x) {
        assert rec[8..24] == bytes;
        assert forall k :: 0 <= k < 16 ==> rec[8 + k] == rec[8..24][k];
      } else {
        assert rec[4..8] == bytes;
        assert forall k :: 0 <= k < 4 ==> rec[4 + k] == rec[4..8][k];
      }
    }
  }

  /** Reading looks at the family, the port and the address, and at no other byte of a record. */
  lemma DecodeReadsLayout(inet: Inet, buf: seq<byte>, off: nat, x: IPSocket, bytes: seq<byte>)
    requires Readable(buf, off) && IsAddress(x.family, bytes)
    requires buf[off] as int + 256 * buf[off + 1] as int == x.family && buf[off + 2] as int * 256 + buf[off + 3] as int == x.port
    requires forall k :: 0 <= k < |bytes| ==> buf[off + (if x.family == 10 then 8 else 4) + k] == bytes[k]
    ensures Decode(inet, buf, off) == IPSocket(inet.ntop(x.family, bytes), x.port, x.family)
  {
    if x.family == 10 {
      assert buf[off + 8..off + 24] == bytes;
    } else {
      assert buf[off + 4..off + 8] == bytes;
    }
  }

  /** The records before the i-th take 16 or 28 bytes each. */
  function OffsetOf(xs: seq<IPSocket>): nat {
    if xs == [] then 0 else OffsetOf(xs[..|xs| - 1]) + if xs[|xs| - 1].family == 10 then 28 else 16
  }

  lemma {:induction false} PackedSize(inet: Inet, xs: seq<IPSocket>)
    requires Lawful(inet) && Pack(inet, xs).Some?
    ensures |Pack(inet, xs).value| == OffsetOf(xs)
  {
    if xs != [] {
      var front, last := xs[..|xs| - 1], xs[|xs| - 1];
      assert xs == front + [last];
      PackAppend(inet, front, last);
      PackedSize(inet, front);
      RecordSize(inet, last);
    }
  }

  lemma PieceAfter(head: seq<byte>, tail: seq<byte>)
    ensures (head + tail)[|head|..|head| + |tail|] == tail
  {
    assert (head + tail)[|head|..|head| + |tail|] == (head + tail)[|head|..];
  }

  lemma PieceBefore(head: seq<byte>, tail: seq<byte>, lo: nat, hi: nat)
    requires lo <= hi <= |head|
    ensures (head + tail)[lo..hi] == head[lo..hi]
  {
  }

  lemma {:induction false} PackedAt(inet: Inet, xs: seq<IPSocket>, i: nat)
    requires Lawful(inet) && Pack(inet, xs).Some? && i < |xs|
    ensures Record(inet, xs[i]).Some?
    ensures var o, rec, buf := OffsetOf(xs[..i]), Record(inet, xs[i]).value, Pack(inet, xs).value;
            o + |rec| <= |buf| && buf[o..o + |rec|] == rec
  {
    var front, last := xs[..|xs| - 1], xs[|xs| - 1];
    assert xs == front + [last];
    PackAppend(inet, front, last);
    var head := Pack(inet, front).value;
    if i < |front| {
      PackedAt(inet, front, i);
      assert xs[..i] == front[..i];
      PieceBefore(head, Record(inet, last).value, OffsetOf(xs[..i]), OffsetOf(xs[..i]) + |Record(inet, xs[i]).value|);
    } else {
      PackedSize(inet, front);
      assert xs[..i] == front && xs[i] == last;
      var rec := Record(inet, last).value;
      assert |head| == OffsetOf(xs[..i]) && Pack(inet, xs).value == head + rec;
      PieceAfter(head, rec);
    }
  }

  lemma {:induction false} PacksExactlyAddresses(inet: Inet, xs: seq<IPSocket>)
    ensures Pack(inet, xs).Some? <==> AllParse(inet, xs)
  {
    if xs != [] {
      PacksExactlyAddresses(inet, xs[1..]);
      if AllParse(inet, xs) {
        assert inet.pton(xs[0].family, xs[0].addr).Some?;
      } else {
        var i :| 0 <= i < |xs| && inet.pton(xs[i].family, xs[i].addr).None?;
        assert i > 0 ==> xs[1..][i - 1] == xs[i];
      }
    }
  }

  /** The i-th socket's bytes stand behind those of the sockets before it, each by index. */
  ghost predicate LaidOutAt(inet: Inet, xs: seq<IPSocket>, i: nat, buf: seq<byte>)
    requires i < |xs|
  {
    var o, n := OffsetOf(xs[..i]), if xs[i].family == 10 then 28 else 16;
    var parsed := inet.pton(xs[i].family, xs[i].addr);
    parsed.Some? && o + n <= |buf| && HasLayout(buf[o..o + n], xs[i], parsed.value)
  }

  /** A list packs if and only if every address in it parses, and then the i-th socket's bytes stand behind those of the
      sockets before it, each by index. */
  lemma PackedBytes(inet: Inet, xs: seq<IPSocket>)
    requires Lawful(inet)
    ensures Pack(inet, xs).Some? <==> AllParse(inet, xs)
    ensures Pack(inet, xs).Some? ==>
              var buf := Pack(inet, xs).value;
              && |buf| == OffsetOf(xs)
              && forall i: nat :: i < |xs| ==> LaidOutAt(inet, xs, i, buf)
  {
    PacksExactlyAddresses(inet, xs);
    if Pack(inet, xs).Some? {
      PackedSize(inet, xs);
      forall i: nat | i < |xs|
        ensures LaidOutAt(inet, xs, i, Pack(inet, xs).value)
      {
        PackedAt(inet, xs, i);
        RecordHasLayout(inet, xs[i]);
      }
    }
  }

  // ---------------------------------------------------------------- reading back

  lemma Bytes16(n: Port)
    ensures FromHost16(Host16(n)[0], Host16(n)[1]) == n && FromNet16(Net16(n)[0], Net16(n)[1]) == n
  {
  }

  /** A record anywhere in a buffer reads back as its socket, and is as long as the socket says. */
  lemma RecordReadsBack(inet: Inet, x: IPSocket, pre: seq<byte>, post: seq<byte>)
    requires Lawful(inet) && Record(inet, x).Some?
    ensures var rec := Record(inet, x).value;
            var buf := pre + rec + post;
            && |rec| == SizeofSockaddr(x)
            && Readable(buf, |pre|) && Decode(inet, buf, |pre|) == Canonical(inet, x)
  {
    var rec, bytes := Record(inet, x).value, inet.pton(x.family, x.addr).value;
    assert IsAddress(x.family, bytes);
    var buf, o := pre + rec + post, |pre|;
    Bytes16(x.family);
    Bytes16(x.port);
    assert forall k :: 0 <= k < |rec| ==> buf[o + k] == rec[k];
    assert rec[0] == Host16(x.family)[0] && rec[1] == Host16(x.family)[1];
    assert buf[o + 0] == rec[0] && buf[o + 1] == rec[1];
    assert rec[2] == Net16(x.port)[0] && rec[3] == Net16(x.port)[1];
    assert buf[o + 2] == rec[2] && buf[o + 3] == rec[3];
    if IsIPv6(x) {
      assert rec[8..24] == bytes;
      assert buf[o + 8..o + 24] == rec[8..24];
    } else {
      assert rec[4..8] == bytes;
      assert buf[o + 4..o + 8] == rec[4..8];
    }
  }

  function SizeOfAll(xs: seq<IPSocket>): nat {
    if xs == [] then 0 else SizeofSockaddr(xs[0]) + SizeOfAll(xs[1..])
  }

  predicate AllParse(inet: Inet, xs: seq<IPSocket>) {
    forall i :: 0 <= i < |xs| ==> inet.pton(xs[i].family, xs[i].addr).Some?
  }

  /** The sockets in order, each with the offset at which its record begins. */
  function Layout(inet: Inet, xs: seq<IPSocket>, off: nat): seq<(nat, IPSocket)>
    requires AllParse(inet, xs)
  {
    if xs == [] then []
    else [(off, Canonical(inet, xs[0]))] + Layout(inet, xs[1..], off + SizeofSockaddr(xs[0]))
  }

  /** The walk from `off` over this many records visits these sockets and ends at the buffer's end. */
  predicate ReadsBack(inet: Inet, xs: seq<IPSocket>, buf: seq<byte>, off: nat)
    requires AllParse(inet, xs)
  {
    && Walkable(inet, buf, off, |xs|)
    && WalkEnd(inet, buf, off, |xs|) == |buf|
    && Walk(inet, buf, off, |xs|) == Layout(inet, xs, off)
  }

  /** If the first record reads back, and the walk from behind it, so does the walk from it. */
  lemma WalkOne(inet: Inet, xs: seq<IPSocket>, buf: seq<byte>, off: nat)
    requires AllParse(inet, xs) && xs != [] && Readable(buf, off) && Decode(inet, buf, off) == Canonical(inet, xs[0])
    requires ReadsBack(inet, xs[1..], buf, off + SizeofSockaddr(xs[0]))
    ensures ReadsBack(inet, xs, buf, off)
  {
  }

  lemma PackFirst(inet: Inet, xs: seq<IPSocket>, pre: seq<byte>)
    requires Lawful(inet) && Pack(inet, xs).Some? && xs != []
    ensures Record(inet, xs[0]).Some? && Pack(inet, xs[1..]).Some?
    ensures var first, tail := Record(inet, xs[0]).value, Pack(inet, xs[1..]).value;
            && |first| == SizeofSockaddr(xs[0]) && |Pack(inet, xs).value| == |first| + |tail|
            && pre + Pack(inet, xs).value == pre + first + tail
  {
    RecordSize(inet, xs[0]);
  }

  lemma {:induction false} WalkReadsBack(inet: Inet, xs: seq<IPSocket>, pre: seq<byte>)
    requires Lawful(inet) && AllParse(inet, xs) && Pack(inet, xs).Some?
    ensures |Pack(inet, xs).value| == SizeOfAll(xs)
    ensures ReadsBack(inet, xs, pre + Pack(inet, xs).value, |pre|)
    decreases |xs|
  {
    if xs != [] {
      PackFirst(inet, xs, pre);
      var first, tail := Record(inet, xs[0]).value, Pack(inet, xs[1..]).value;
      RecordReadsBack(inet, xs[0], pre, tail);
      WalkReadsBack(inet, xs[1..], pre + first);
      assert |pre + first| == |pre| + SizeofSockaddr(xs[0]);
      assert ReadsBack(inet, xs[1..], pre + first + tail, |pre| + SizeofSockaddr(xs[0]));
      WalkOne(inet, xs, pre + first + tail, |pre|);
    }
  }

  lemma {:induction false} LayoutAt(inet: Inet, xs: seq<IPSocket>, off: nat, i: nat)
    requires AllParse(inet, xs) && i < |xs|
    ensures |Layout(inet, xs, off)| == |xs|
    ensures Layout(inet, xs, off)[i] == (off + SizeOfAll(xs[..i]), Canonical(inet, xs[i]))
    decreases |xs|
  {
    if i > 0 {
      LayoutAt(inet, xs[1..], off + SizeofSockaddr(xs[0]), i - 1);
      assert xs[..i][1..] == xs[1..][..i - 1];
    } else if |xs| > 1 {
      LayoutAt(inet, xs[1..], off + SizeofSockaddr(xs[0]), 0);
    }
  }

  /** For every list of sockets with IPv4 and IPv6 addresses, the walk over the packed buffer visits the
      sockets in order, the i-th at the sum of the sizes before it, and ends at the end of the buffer. */
  lemma AddressArrayRoundTrip(inet: Inet, xs: seq<IPSocket>)
    requires Lawful(inet) && AllParse(inet, xs)
    ensures Pack(inet, xs).Some?
    ensures var buf := Pack(inet, xs).value;
            && Walkable(inet, buf, 0, |xs|) && WalkEnd(inet, buf, 0, |xs|) == |buf| == SizeOfAll(xs)
            && |Walk(inet, buf, 0, |xs|)| == |xs|
            && forall i :: 0 <= i < |xs| ==> Walk(inet, buf, 0, |xs|)[i] == (SizeOfAll(xs[..i]), Canonical(inet, xs[i]))
  {
    AllPack(inet, xs);
    WalkReadsBack(inet, xs, []);
    assert [] + Pack(inet, xs).value == Pack(inet, xs).value;
    LayoutEverywhere(inet, xs);
  }

  lemma LayoutEverywhere(inet: Inet, xs: seq<IPSocket>)
    requires AllParse(inet, xs)
    ensures var l := Layout(inet, xs, 0);
            |l| == |xs| && forall i :: 0 <= i < |xs| ==> l[i] == (SizeOfAll(xs[..i]), Canonical(inet, xs[i]))
  {
    forall i | 0 <= i < |xs|
      ensures |Layout(inet, xs, 0)| == |xs| && Layout(inet, xs, 0)[i] == (SizeOfAll(xs[..i]), Canonical(inet, xs[i]))
    {
      LayoutAt(inet, xs, 0, i);
    }
  }

  lemma {:induction false} AllPack(inet: Inet, xs: seq<IPSocket>)
    requires AllParse(inet, xs)
    ensures Pack(inet, xs).Some?
  {
    if xs != [] {
      AllPack(inet, xs[1..]);
    }
  }
}
