/**
 The kernel program's `seen_worker` bitmap: 256 workers, one bit each, packed
 into 32 bytes (the userspace tables spend one byte per worker instead).
 */
module SeenBitmap {

  type Bitmap = b: seq<bv8> | |b| == 32 witness seq(32, i => 0)

  function NoneMarked(): Bitmap {
    seq(32, i => 0)
  }

  function Bit(k: nat): bv8
    requires k < 8
  {
    (1 as bv8) << k
  }

  predicate Test(b: Bitmap, w: nat)
    requires w < 256
  {
    b[w / 8] & Bit(w % 8) != 0
  }

  function Mark(b: Bitmap, w: nat): Bitmap
    requires w < 256
  {
    b[w / 8 := b[w / 8] | Bit(w % 8)]
  }

  lemma BitTable(k: nat)
    requires k < 8
    ensures Bit(k) == [1, 2, 4, 8, 16, 32, 64, 128][k]
  {
    match k
    case 0 | 1 | 2 | 3 | 4 | 5 | 6 | 7 =>
  }

  lemma BitOverlap(j: nat, k: nat, x: bv8)
    requires j < 8 && k < 8
    ensures (x | Bit(j)) & Bit(k) != 0 <==> j == k || x & Bit(k) != 0
  {
    BitTable(j);
    BitTable(k);
  }

  lemma NoneHasNone(w: nat)
    requires w < 256
    ensures !Test(NoneMarked(), w)
  {
    BitTable(w % 8);
  }

  /** The bitmap is a set of workers: marking one adds it and touches no other. */
  lemma MarkAddsOne(b: Bitmap, w: nat, v: nat)
    requires w < 256 && v < 256
    ensures Test(Mark(b, w), v) <==> v == w || Test(b, v)
  {
    BitOverlap(w % 8, v % 8, b[w / 8]);
  }
}
