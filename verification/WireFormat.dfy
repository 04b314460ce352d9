/**
 The 20-byte gradient header and its payload, byte by byte: how the worker and
 the aggregator pack a packet, and how the two admission parsers read one.

 Hosts are little-endian, as the project's targets are: a multi-byte field is
 loaded least significant byte first and then swapped.
 */
module WireFormat {
  import opened GradProto

  type byte = x: int | 0 <= x < 256

  const HDR_SIZE: nat := 20

  // ------------------------------------------------------------- byte order

  function Octet(d: seq<byte>, o: nat): (b: int)
    requires o < |d|
    ensures 0 <= b < 256
  {
    d[o]
  }

  /** A field as the host loads it. */
  function HostLoad16(d: seq<byte>, o: nat): u16
    requires o + 2 <= |d|
  {
    Octet(d, o) + 256 * Octet(d, o + 1)
  }

  function HostLoad32(d: seq<byte>, o: nat): u32
    requires o + 4 <= |d|
  {
    Octet(d, o) + 0x100 * Octet(d, o + 1) + 0x1_0000 * Octet(d, o + 2) + 0x100_0000 * Octet(d, o + 3)
  }

  /** The kernel program's own swaps: `(v << 8) | (v >> 8)`, and the four masked shifts. */
  function BpfNtohs(v: u16): u16 {
    (v * 256) % TWO16 + v / 256
  }

  function BpfNtohl(v: u32): u32 {
    (v % 0x100) * 0x100_0000 + ((v / 0x100) % 0x100) * 0x1_0000 + ((v / 0x1_0000) % 0x100) * 0x100 + v / 0x100_0000
  }

  /** What libc's ntohs and ntohl make of the same bytes: most significant byte first. */
  function Net16(d: seq<byte>, o: nat): u16
    requires o + 2 <= |d|
  {
    256 * Octet(d, o) + Octet(d, o + 1)
  }

  function Net32(d: seq<byte>, o: nat): u32
    requires o + 4 <= |d|
  {
    0x100_0000 * Octet(d, o) + 0x1_0000 * Octet(d, o + 1) + 0x100 * Octet(d, o + 2) + Octet(d, o + 3)
  }

  lemma SwapReads16(d: seq<byte>, o: nat)
    requires o + 2 <= |d|
    ensures BpfNtohs(HostLoad16(d, o)) == Net16(d, o)
  {
    var v: int := HostLoad16(d, o);
    assert v / 256 == Octet(d, o + 1) && v % 256 == Octet(d, o);
    assert v * 256 == TWO16 * Octet(d, o + 1) + 256 * Octet(d, o);
  }

  lemma SwapReads32(d: seq<byte>, o: nat)
    requires o + 4 <= |d|
    ensures BpfNtohl(HostLoad32(d, o)) == Net32(d, o)
  {
    var v: int := HostLoad32(d, o);
    assert v / 0x100 == Octet(d, o + 1) + 0x100 * Octet(d, o + 2) + 0x1_0000 * Octet(d, o + 3);
    assert v / 0x1_0000 == Octet(d, o + 2) + 0x100 * Octet(d, o + 3);
    assert v / 0x100_0000 == Octet(d, o + 3);
  }

  function ToSigned(v: u32): i32 {
    if v < TWO31 then v else v - TWO32
  }

  function ToUnsigned(v: i32): u32 {
    if v < 0 then v + TWO32 else v
  }

  // ------------------------------------------------------------- the two parsers

  datatype Parsed = Reject | Accept(packet: Packet)

  function NetValues(d: seq<byte>, o: nat, n: nat): (vs: seq<i32>)
    requires o + 4 * n <= |d|
    ensures |vs| == n
  {
    seq(n, i requires 0 <= i < n => ToSigned(Net32(d, o + 4 * i)))
  }

  function SwappedValues(d: seq<byte>, o: nat, n: nat): (vs: seq<i32>)
    requires o + 4 * n <= |d|
    ensures |vs| == n
  {
    seq(n, i requires 0 <= i < n => ToSigned(BpfNtohl(HostLoad32(d, o + 4 * i))))
  }

  /** The userspace aggregator's admission checks, in its order. */
  function AggParse(d: seq<byte>): Parsed {
    if |d| < HDR_SIZE then Reject
    else
      var worker, numWorkers := Net16(d, 12), Net16(d, 14);
      var chunkLen: int := Net16(d, 16);
      if chunkLen > MAX_CHUNK_LEN then Reject
      else if |d| < HDR_SIZE + 4 * chunkLen then Reject
      else if worker >= MAX_WORKERS then Reject
      else if numWorkers == 0 || numWorkers > MAX_WORKERS then Reject
      else Accept(Packet(Key(Net32(d, 0), Net32(d, 4), Net32(d, 8)), worker, numWorkers, NetValues(d, HDR_SIZE, chunkLen)))
  }

  /** The kernel program's checks, in its order, on a packet that would create its slot. */
  function XdpParse(d: seq<byte>): Parsed {
    if |d| < HDR_SIZE then Reject
    else
      var chunkLen: int := BpfNtohs(HostLoad16(d, 16));
      if chunkLen > 64 then Reject
      else if |d| < HDR_SIZE + 4 * chunkLen then Reject
      else
        var worker := BpfNtohs(HostLoad16(d, 12));
        if worker >= 32 * 8 then Reject
        else
          var numWorkers := BpfNtohs(HostLoad16(d, 14));
          if numWorkers == 0 || numWorkers > 32 * 8 then Reject
          else Accept(Packet(
            Key(BpfNtohl(HostLoad32(d, 0)), BpfNtohl(HostLoad32(d, 4)), BpfNtohl(HostLoad32(d, 8))),
            worker, numWorkers, SwappedValues(d, HDR_SIZE, chunkLen)))
  }

  /** The claim the fuzzer searches for counterexamples to: same verdict, same fields, on all bytes. */
  lemma ParsersAgree(d: seq<byte>)
    ensures AggParse(d) == XdpParse(d)
  {
    if |d| >= HDR_SIZE {
      SwapReads16(d, 12);
      SwapReads16(d, 14);
      SwapReads16(d, 16);
      SwapReads32(d, 0);
      SwapReads32(d, 4);
      SwapReads32(d, 8);
      var n: int := Net16(d, 16);
      if |d| >= HDR_SIZE + 4 * n {
        forall i | 0 <= i < n ensures BpfNtohl(HostLoad32(d, HDR_SIZE + 4 * i)) == Net32(d, HDR_SIZE + 4 * i) {
          SwapReads32(d, HDR_SIZE + 4 * i);
        }
      }
    }
  }

  // ------------------------------------------------------------------ packing

  function Bytes16(v: u16): (b: seq<byte>)
    ensures |b| == 2
  {
    [v / 256, v % 256]
  }

  function Bytes32(v: u32): (b: seq<byte>)
    ensures |b| == 4
  {
    [v / 0x100_0000, (v / 0x1_0000) % 0x100, (v / 0x100) % 0x100, v % 0x100]
  }

  function Header(p: Packet): (b: seq<byte>)
    requires |p.values| < TWO16
    ensures |b| == HDR_SIZE
  {
    Bytes32(p.key.job) + Bytes32(p.key.round) + Bytes32(p.key.chunk)
    + Bytes16(p.worker) + Bytes16(p.numWorkers) + Bytes16(|p.values|) + Bytes16(0)
  }

  function Payload(vs: seq<i32>): (b: seq<byte>)
    ensures |b| == 4 * |vs|
  {
    if vs == [] then [] else Payload(vs[..|vs| - 1]) + Bytes32(ToUnsigned(vs[|vs| - 1]))
  }

  function Encode(p: Packet): seq<byte>
    requires |p.values| < TWO16
  {
    Header(p) + Payload(p.values)
  }

  lemma BytesOf(v: u32)
    ensures v == 0x100_0000 * (v / 0x100_0000) + 0x1_0000 * ((v / 0x1_0000) % 0x100) + 0x100 * ((v / 0x100) % 0x100) + v % 0x100
  {
    assert v / 0x1_0000 == (v / 0x100) / 0x100 && v / 0x100_0000 == (v / 0x1_0000) / 0x100;
  }

  lemma Bytes32Net(pre: seq<byte>, v: u32, post: seq<byte>)
    ensures Net32(pre + Bytes32(v) + post, |pre|) == v
  {
    var d, o := pre + Bytes32(v) + post, |pre|;
    assert Octet(d, o) == v / 0x100_0000 && Octet(d, o + 1) == (v / 0x1_0000) % 0x100;
    assert Octet(d, o + 2) == (v / 0x100) % 0x100 && Octet(d, o + 3) == v % 0x100;
    BytesOf(v);
  }

  lemma Bytes16Net(pre: seq<byte>, v: u16, post: seq<byte>)
    ensures Net16(pre + Bytes16(v) + post, |pre|) == v
  {
    var d, o := pre + Bytes16(v) + post, |pre|;
    assert Octet(d, o) == v / 256 && Octet(d, o + 1) == v % 256;
  }

  lemma HeaderReads(p: Packet, rest: seq<byte>)
    requires |p.values| < TWO16
    ensures var d := Header(p) + rest;
            && Net32(d, 0) == p.key.job && Net32(d, 4) == p.key.round && Net32(d, 8) == p.key.chunk
            && Net16(d, 12) == p.worker && Net16(d, 14) == p.numWorkers && Net16(d, 16) == |p.values| && Net16(d, 18) == 0
  {
    var d := Header(p) + rest;
    var a, b, c := Bytes32(p.key.job), Bytes32(p.key.round), Bytes32(p.key.chunk);
    var e, f, g, h := Bytes16(p.worker), Bytes16(p.numWorkers), Bytes16(|p.values|), Bytes16(0);
    assert d == [] + a + (b + c + e + f + g + h + rest);
    Bytes32Net([], p.key.job, b + c + e + f + g + h + rest);
    assert d == a + b + (c + e + f + g + h + rest);
    Bytes32Net(a, p.key.round, c + e + f + g + h + rest);
    assert d == (a + b) + c + (e + f + g + h + rest);
    Bytes32Net(a + b, p.key.chunk, e + f + g + h + rest);
    assert d == (a + b + c) + e + (f + g + h + rest);
    Bytes16Net(a + b + c, p.worker, f + g + h + rest);
    assert d == (a + b + c + e) + f + (g + h + rest);
    Bytes16Net(a + b + c + e, p.numWorkers, g + h + rest);
    assert d == (a + b + c + e + f) + g + (h + rest);
    Bytes16Net(a + b + c + e + f, |p.values|, h + rest);
    assert d == (a + b + c + e + f + g) + h + rest;
    Bytes16Net(a + b + c + e + f + g, 0, rest);
  }

  lemma NetValuesNext(d: seq<byte>, o: nat, n: nat, v: i32)
    requires o + 4 * n + 4 <= |d| && Net32(d, o + 4 * n) == ToUnsigned(v)
    ensures NetValues(d, o, n + 1) == NetValues(d, o, n) + [v]
  {
  }

  lemma {:induction false} PayloadReads(pre: seq<byte>, vs: seq<i32>, post: seq<byte>)
    ensures NetValues(pre + Payload(vs) + post, |pre|, |vs|) == vs
  {
    if vs != [] {
      var n, v := |vs| - 1, vs[|vs| - 1];
      var head, cell := pre + Payload(vs[..n]), Bytes32(ToUnsigned(v));
      PayloadReads(pre, vs[..n], cell + post);
      Bytes32Net(head, ToUnsigned(v), post);
      assert pre + Payload(vs) + post == head + cell + post == head + (cell + post);
      NetValuesNext(head + cell + post, |pre|, n, v);
      assert vs[..n] + [v] == vs;
    }
  }

  /**
   Round trip: what is packed is read back, header and signed values, by both
   parsers and whatever bytes trail it, exactly when it passes the admission checks.
   The flags, which no parser reads, are 0.
   */
  lemma RoundTrip(p: Packet, trailing: seq<byte>)
    requires |p.values| < TWO16
    ensures var verdict := if Bounded(p) && ValidFanIn(p.numWorkers) then Accept(p) else Reject;
            AggParse(Encode(p) + trailing) == verdict && XdpParse(Encode(p) + trailing) == verdict
    ensures Net16(Encode(p) + trailing, 18) == 0
  {
    var d := Encode(p) + trailing;
    assert d == Header(p) + (Payload(p.values) + trailing);
    assert d == Header(p) + Payload(p.values) + trailing;
    HeaderReads(p, Payload(p.values) + trailing);
    PayloadReads(Header(p), p.values, trailing);
    ParsersAgree(d);
  }

  /** A truncated packet is refused: the header claims more values than follow. */
  lemma TruncatedRefused(p: Packet, n: nat)
    requires |p.values| < TWO16 && n < |Encode(p)|
    ensures AggParse(Encode(p)[..n]) == Reject
  {
    var d := Encode(p)[..n];
    if n >= HDR_SIZE {
      assert d == Header(p) + Payload(p.values)[..n - HDR_SIZE];
      HeaderReads(p, Payload(p.values)[..n - HDR_SIZE]);
    }
  }

  // -------------------------------------------------------- writing the buffer

  method Store16(buf: array<byte>, o: nat, v: u16)
    requires o + 2 <= buf.Length
    modifies buf
    ensures buf[..] == old(buf[..o]) + Bytes16(v) + old(buf[o + 2..])
  {
    buf[o], buf[o + 1] := v / 256, v % 256;
  }

  method Store32(buf: array<byte>, o: nat, v: u32)
    requires o + 4 <= buf.Length
    modifies buf
    ensures buf[..] == old(buf[..o]) + Bytes32(v) + old(buf[o + 4..])
  {
    buf[o], buf[o + 1], buf[o + 2], buf[o + 3] :=
      v / 0x100_0000, (v / 0x1_0000) % 0x100, (v / 0x100) % 0x100, v % 0x100;
  }

  method PackKey(buf: array<byte>, key: Key)
    requires buf.Length >= HDR_SIZE
    modifies buf
    ensures buf[..] == Bytes32(key.job) + Bytes32(key.round) + Bytes32(key.chunk) + old(buf[12..])
  {
    ghost var d := buf[..];
    Store32(buf, 0, key.job);
    assert buf[..] == Bytes32(key.job) + d[4..];
    Store32(buf, 4, key.round);
    assert buf[..] == Bytes32(key.job) + Bytes32(key.round) + d[8..];
    Store32(buf, 8, key.chunk);
  }

  /** The header, field by field into the reused packet buffer. */
  method PackHeader(buf: array<byte>, p: Packet)
    requires buf.Length >= HDR_SIZE && |p.values| < TWO16
    modifies buf
    ensures buf[..] == Header(p) + old(buf[HDR_SIZE..])
  {
    ghost var d := buf[..];
    PackKey(buf, p.key);
    ghost var ids := buf[..12];
    assert buf[..] == ids + d[12..];
    Store16(buf, 12, p.worker);
    ids := ids + Bytes16(p.worker);
    assert buf[..] == ids + d[14..];
    Store16(buf, 14, p.numWorkers);
    ids := ids + Bytes16(p.numWorkers);
    assert buf[..] == ids + d[16..];
    Store16(buf, 16, |p.values|);
    ids := ids + Bytes16(|p.values|);
    assert buf[..] == ids + d[18..];
    Store16(buf, 18, 0);
    assert buf[..] == ids + Bytes16(0) + d[20..];
  }

  /**
   The worker's inner loop body, and the aggregator's emit path: pack one packet
   into a fixed-size buffer and say how many bytes to send.
   */
  method Pack(buf: array<byte>, p: Packet) returns (len: nat)
    requires |p.values| <= MAX_CHUNK_LEN && buf.Length == HDR_SIZE + 4 * MAX_CHUNK_LEN
    modifies buf
    ensures len <= buf.Length && buf[..len] == Encode(p)
  {
    PackHeader(buf, p);
    var i := 0;
    while i < |p.values|
      invariant 0 <= i <= |p.values|
      invariant buf[..HDR_SIZE + 4 * i] == Header(p) + Payload(p.values[..i])
    {
      ghost var done := buf[..HDR_SIZE + 4 * i];
      Store32(buf, HDR_SIZE + 4 * i, ToUnsigned(p.values[i]));
      assert buf[..HDR_SIZE + 4 * (i + 1)] == done + Bytes32(ToUnsigned(p.values[i]));
      assert p.values[..i + 1][..i] == p.values[..i];
      i := i + 1;
    }
    len := HDR_SIZE + 4 * |p.values|;
    assert p.values[..i] == p.values;
  }
}
