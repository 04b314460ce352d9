/**
 The IPv4 header checksum the kernel program recomputes after retargeting a
 packet: section 3.1 of RFC 791, arithmetic of section 1 and byte-order
 independence of section 2 of RFC 1071.
 */
module IpChecksum {
  import opened GradProto
  import W = WireFormat

  const WORDS: nat := 10
  const CHECK: nat := 5   // the checksum field's own position

  ghost function WordSum(ws: seq<u16>): nat {
    if ws == [] then 0 else WordSum(ws[..|ws| - 1]) + ws[|ws| - 1]
  }

  /** One end-around carry. */
  function FoldOnce(x: nat): nat {
    x % TWO16 + x / TWO16
  }

  lemma {:induction false} WordSumAppend(a: seq<u16>, b: seq<u16>)
    ensures WordSum(a + b) == WordSum(a) + WordSum(b)
  {
    if b == [] {
      assert a + b == a;
    } else {
      WordSumAppend(a, b[..|b| - 1]);
      assert (a + b)[..|a + b| - 1] == a + b[..|b| - 1];
    }
  }

  /** Skipping word 5 is summing words 0 to 4 and 6 to 9. */
  lemma SkipFive(ws: seq<u16>)
    requires |ws| == 10
    ensures WordSum(ws[5 := 0]) == WordSum(ws[..5] + ws[6..])
  {
    assert ws[5 := 0] == ws[..5] + [0] + ws[6..];
    WordSumAppend(ws[..5] + [0], ws[6..]);
    WordSumAppend(ws[..5], [0]);
    WordSumAppend(ws[..5], ws[6..]);
    assert WordSum([0]) == WordSum([0][..0]) + 0 == 0;
  }

  /** The loop with its `continue`. */
  method SumWords(ws: seq<u16>) returns (sum: nat)
    requires |ws| == WORDS
    ensures sum == WordSum(ws[..5] + ws[6..]) == WordSum(ws[CHECK := 0])
  {
    ghost var cleared := ws[CHECK := 0];
    var i := 0;
    sum := 0;
    while i < WORDS
      invariant 0 <= i <= WORDS
      invariant sum == WordSum(cleared[..i])
    {
      assert cleared[..i + 1][..i] == cleared[..i];
      if i != CHECK {
        sum := sum + ws[i];
      }
      i := i + 1;
    }
    assert cleared[..WORDS] == cleared;
    SkipFive(ws);
  }

  /** Nine words, two folds, and the complement truncated to 16 bits. */
  method Checksum(ws: seq<u16>) returns (c: u16)
    requires |ws| == WORDS
    ensures c == TWO16 - 1 - FoldOnce(FoldOnce(WordSum(ws[CHECK := 0])))
    ensures FoldOnce(FoldOnce(WordSum(ws[CHECK := 0]))) < TWO16
  {
    var sum := SumWords(ws);
    NineWordsFit(ws);
    sum := sum % TWO16 + sum / TWO16;
    sum := sum % TWO16 + sum / TWO16;
    Complement16(sum);
    c := (TWO32 - 1 - sum) % TWO16;
  }

  lemma Complement16(x: nat)
    requires x < TWO16
    ensures (TWO32 - 1 - x) % TWO16 == TWO16 - 1 - x
  {
  }

  lemma {:induction false} WordSumBound(ws: seq<u16>)
    ensures WordSum(ws) <= |ws| * (TWO16 - 1)
  {
    if ws != [] {
      WordSumBound(ws[..|ws| - 1]);
    }
  }

  /** Nine words and two folds: no 32-bit overflow, and the result fits 16 bits. */
  lemma NineWordsFit(ws: seq<u16>)
    requires |ws| == WORDS
    ensures WordSum(ws[CHECK := 0]) < TWO32
    ensures FoldOnce(FoldOnce(WordSum(ws[CHECK := 0]))) < TWO16
  {
    WordSumBound(ws[CHECK := 0]);
  }

  // ------------------------------------------------------------- the receiver

  /** A receiver's ones'-complement sum: end-around carries until 16 bits are left. */
  function OnesComplement(x: nat): nat {
    if x < TWO16 then x else OnesComplement(FoldOnce(x))
  }

  /** Byte-swapping a word. */
  function Swap(w: u16): u16 {
    (w % 256) * 256 + w / 256
  }

  function SwapAll(ws: seq<u16>): (r: seq<u16>)
    ensures |r| == |ws|
  {
    seq(|ws|, i requires 0 <= i < |ws| => Swap(ws[i]))
  }

  function Times65535(t: int): int {
    65535 * t
  }

  lemma {:induction false} MultiplesFoldToAllOnes(x: nat, t: int)
    requires x == Times65535(t) && 1 <= t
    ensures OnesComplement(x) == 0xFFFF
    decreases x
  {
    if x >= TWO16 {
      var h := x / TWO16;
      assert FoldOnce(x) == x - 65535 * h == Times65535(t - h);
      assert x == TWO16 * h + x % TWO16;
      MultiplesFoldToAllOnes(FoldOnce(x), t - h);
    }
  }

  lemma {:induction false} WordSumUpdate(ws: seq<u16>, i: nat, w: u16)
    requires i < |ws|
    ensures WordSum(ws[i := w]) == WordSum(ws) - ws[i] + w
  {
    var last := |ws| - 1;
    if i == last {
      assert ws[i := w][..last] == ws[..last];
    } else {
      WordSumUpdate(ws[..last], i, w);
      assert ws[i := w][..last] == ws[..last][i := w];
    }
  }

  ghost function HighBytes(ws: seq<u16>): nat {
    if ws == [] then 0 else HighBytes(ws[..|ws| - 1]) + ws[|ws| - 1] / 256
  }

  /** Swapping every word multiplies the sum by 256, modulo 65535. */
  lemma {:induction false} SwappedSum(ws: seq<u16>)
    ensures WordSum(SwapAll(ws)) + Times65535(HighBytes(ws)) == 256 * WordSum(ws)
    ensures WordSum(SwapAll(ws)) == 0 ==> WordSum(ws) == 0
  {
    if ws != [] {
      var front, w := ws[..|ws| - 1], ws[|ws| - 1];
      SwappedSum(front);
      assert SwapAll(ws)[..|ws| - 1] == SwapAll(front);
      var x: int := w;
      assert Swap(w) as int + 65535 * (x / 256) == 256 * x by {
        assert x == 256 * (x / 256) + x % 256;
      }
    }
  }

  /** The stored header sums to a positive multiple of 65535. */
  lemma StoredSum(ws: seq<u16>, c: u16) returns (t: int)
    requires |ws| == WORDS
    requires c == TWO16 - 1 - FoldOnce(FoldOnce(WordSum(ws[CHECK := 0])))
    ensures WordSum(ws[CHECK := c]) == Times65535(t) && 1 <= t
  {
    var s := WordSum(ws[CHECK := 0]);
    WordSumUpdate(ws[CHECK := 0], CHECK, c);
    assert ws[CHECK := 0][CHECK := c] == ws[CHECK := c];
    var h := s / TWO16;
    var h' := FoldOnce(s) / TWO16;
    assert FoldOnce(s) == s - 65535 * h;
    assert FoldOnce(FoldOnce(s)) == s - 65535 * h - 65535 * h';
    t := 1 + h + h';
    assert s + c == Times65535(t);
  }

  /**
   Every header the program sends passes the receiver's check: with the complement
   stored, all ten words sum to 0xFFFF, whichever byte order they are read in.
   */
  lemma ReceiverAccepts(ws: seq<u16>, c: u16)
    requires |ws| == WORDS
    requires c == TWO16 - 1 - FoldOnce(FoldOnce(WordSum(ws[CHECK := 0])))
    ensures OnesComplement(WordSum(ws[CHECK := c])) == 0xFFFF
    ensures OnesComplement(WordSum(SwapAll(ws[CHECK := c]))) == 0xFFFF
  {
    var stored := ws[CHECK := c];
    var t := StoredSum(ws, c);
    MultiplesFoldToAllOnes(WordSum(stored), t);
    SwappedSum(stored);
    var u := 256 * t - HighBytes(stored);
    assert WordSum(SwapAll(stored)) == Times65535(u);
    MultiplesFoldToAllOnes(WordSum(SwapAll(stored)), u);
  }

  // ----------------------------------------------------------- the header in bytes

  /** The 20 header bytes as the program's loop loads them, and as they are on the wire. */
  function HostWords(d: seq<W.byte>): (ws: seq<u16>)
    requires |d| == 20
    ensures |ws| == WORDS
  {
    seq(WORDS, i requires 0 <= i < WORDS => W.HostLoad16(d, 2 * i))
  }

  function NetWords(d: seq<W.byte>): (ws: seq<u16>)
    requires |d| == 20
    ensures |ws| == WORDS
  {
    seq(WORDS, i requires 0 <= i < WORDS => W.Net16(d, 2 * i))
  }

  lemma NetIsSwapped(d: seq<W.byte>)
    requires |d| == 20
    ensures NetWords(d) == SwapAll(HostWords(d))
  {
    forall i | 0 <= i < WORDS ensures W.Net16(d, 2 * i) == Swap(W.HostLoad16(d, 2 * i)) {
      var lo, hi := W.Octet(d, 2 * i), W.Octet(d, 2 * i + 1);
      assert (lo + 256 * hi) % 256 == lo && (lo + 256 * hi) / 256 == hi;
    }
  }

  /** Storing a word over bytes 10 and 11, low byte first. */
  lemma StoreCheck(before: seq<W.byte>, after: seq<W.byte>, c: u16)
    requires |before| == |after| == 20 && after[10] == c % 256 && after[11] == c / 256
    requires forall i :: 0 <= i < 20 && i != 10 && i != 11 ==> after[i] == before[i]
    ensures HostWords(after) == HostWords(before)[5 := c]
  {
  }

  /**
   Writing the recomputed checksum into the header in place: bytes 10 and 11 change and
   nothing else does, not the TTL in byte 8, the protocol in byte 9 or the addresses
   from byte 12 on; and a receiver's sum over the ten words is 0xFFFF.
   */
  method Rewrite(header: array<W.byte>)
    requires header.Length == 20
    modifies header
    ensures forall i :: 0 <= i < 20 && i != 10 && i != 11 ==> header[i] == old(header[i])
    ensures OnesComplement(WordSum(NetWords(header[..]))) == 0xFFFF
    ensures OnesComplement(WordSum(HostWords(header[..]))) == 0xFFFF
  {
    ghost var before := header[..];
    header[10], header[11] := 0, 0;
    StoreCheck(before, header[..], 0);
    var c := Checksum(HostWords(header[..]));
    header[10], header[11] := c % 256, c / 256;
    StoreCheck(before, header[..], c);
    assert HostWords(before)[CHECK := 0] == HostWords(before)[CHECK := 0][CHECK := 0];
    ReceiverAccepts(HostWords(before), c);
    NetIsSwapped(header[..]);
  }
}
