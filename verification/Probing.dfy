/**
 Linear probing over a fixed table, as all three hash tables do it: start at
 the key's hash, walk cell by cell modulo the capacity, stop at the first cell
 that is free or already holds the key, give up after one full round.

 A table is seen through its view: `None` for a free cell, `Some(k)` for a cell
 in use by key `k`. Hash functions are arbitrary.
 */
module Probing {
  import opened GradProto

  /** The cell visited at probe distance `d`. */
  function At(h: nat, d: nat, n: nat): (i: nat)
    requires 0 < n
    ensures i < n
  {
    (h + d) % n
  }

  /** The probe distance at which cell `i` is visited. */
  function Distance(h: nat, i: nat, n: nat): (d: nat)
    requires i < n
    ensures d < n
  {
    (i as int - h as int) % n
  }

  lemma MultipleAtLeast(n: int, m: int)
    requires 0 < n && 1 <= m
    ensures n <= n * m
  {
  }

  lemma ModUnique(x: int, n: int, q: int, r: int)
    requires 0 <= r < n
    requires x == n * q + r
    ensures x % n == r
  {
    var q', r' := x / n, x % n;
    assert n * (q - q') == r' - r;
    if q - q' >= 1 {
      MultipleAtLeast(n, q - q');
    } else if q' - q >= 1 {
      MultipleAtLeast(n, q' - q);
    }
  }

  /** Every cell is visited exactly once per round. */
  lemma VisitsOnce(h: nat, i: nat, n: nat)
    requires i < n
    ensures At(h, Distance(h, i, n), n) == i
    ensures forall d :: 0 <= d < n && At(h, d, n) == i ==> d == Distance(h, i, n)
  {
    var x: int := i - h;
    var d := Distance(h, i, n);
    assert h + d == n * (-(x / n)) + i;
    ModUnique(h + d, n, -(x / n), i);
    forall d' | 0 <= d' < n && At(h, d', n) == i ensures d' == d {
      var q := (h + d') / n;
      assert x == n * (-q) + d';
      ModUnique(x, n, -q, d');
    }
  }

  predicate Stops<K(==)>(v: seq<Option<K>>, i: nat, k: K)
    requires i < |v|
  {
    v[i].None? || v[i].value == k
  }

  /** The probe loop: the first distance from `d` on at which probing for `k` stops, or `|v|`. */
  function Find<K(==)>(v: seq<Option<K>>, h: nat, k: K, d: nat := 0): (r: nat)
    requires 0 < |v| && d <= |v|
    ensures d <= r <= |v|
    ensures forall e :: d <= e < r ==> !Stops(v, At(h, e, |v|), k)
    ensures r < |v| ==> Stops(v, At(h, r, |v|), k)
    decreases |v| - d
  {
    if d == |v| || Stops(v, At(h, d, |v|), k) then d else Find(v, h, k, d + 1)
  }

  /** The loop gives up exactly when the table is full and the key is absent. */
  lemma GivesUpIffFullAndAbsent<K>(v: seq<Option<K>>, h: nat, k: K)
    requires 0 < |v|
    ensures Find(v, h, k) == |v| <==> forall i :: 0 <= i < |v| ==> v[i].Some? && v[i].value != k
  {
    if Find(v, h, k) == |v| {
      forall i | 0 <= i < |v| ensures !Stops(v, i, k) {
        VisitsOnce(h, i, |v|);
        assert !Stops(v, At(h, Distance(h, i, |v|), |v|), k);
      }
      assert forall i :: 0 <= i < |v| ==> !Stops(v, i, k) ==> v[i].Some? && v[i].value != k;
    } else {
      var i := At(h, Find(v, h, k), |v|);
      assert Stops(v, i, k);
      assert v[i].None? || v[i].value == k;
    }
  }

  // ------------------------------------------------------------ map-like tables

  /** Probing for the key in cell `i` leads to cell `i`. */
  ghost predicate Reached<K>(v: seq<Option<K>>, hash: K -> nat, i: nat)
    requires i < |v| && v[i].Some?
  {
    Find(v, hash(v[i].value), v[i].value) == Distance(hash(v[i].value), i, |v|)
  }

  /** Every key in use is found where it is: the table is a finite map. */
  ghost predicate MapLike<K>(v: seq<Option<K>>, hash: K -> nat) {
    0 < |v| && forall i :: 0 <= i < |v| && v[i].Some? ==> Reached(v, hash, i)
  }

  /** Cell `j` is visited strictly before the cell `i` that holds the key. */
  ghost predicate OnPath<K>(v: seq<Option<K>>, hash: K -> nat, j: nat, i: nat)
    requires i < |v| && j < |v| && v[i].Some?
  {
    Distance(hash(v[i].value), j, |v|) < Distance(hash(v[i].value), i, |v|)
  }

  lemma ReachedIffPathBlocked<K>(v: seq<Option<K>>, hash: K -> nat, i: nat)
    requires i < |v| && v[i].Some?
    ensures Reached(v, hash, i) <==> forall j :: 0 <= j < |v| && OnPath(v, hash, j, i) ==> !Stops(v, j, v[i].value)
  {
    var k := v[i].value;
    var h, n := hash(k), |v|;
    VisitsOnce(h, i, n);
    if Reached(v, hash, i) {
      forall j | 0 <= j < n && OnPath(v, hash, j, i) ensures !Stops(v, j, k) {
        VisitsOnce(h, j, n);
      }
    } else {
      var d := Find(v, h, k);
      var j := At(h, d, n);
      VisitsOnce(h, j, n);
      assert OnPath(v, hash, j, i) && Stops(v, j, k);
    }
  }

  /** A key of a map-like table has one cell, and probing for it ends there. */
  lemma FindsPresent<K>(v: seq<Option<K>>, hash: K -> nat, i: nat)
    requires MapLike(v, hash)
    requires i < |v| && v[i].Some?
    ensures Find(v, hash(v[i].value), v[i].value) < |v|
    ensures At(hash(v[i].value), Find(v, hash(v[i].value), v[i].value), |v|) == i
  {
    assert Reached(v, hash, i);
    VisitsOnce(hash(v[i].value), i, |v|);
  }

  lemma KeysDistinct<K>(v: seq<Option<K>>, hash: K -> nat, i: nat, j: nat)
    requires MapLike(v, hash)
    requires i < |v| && j < |v| && v[i].Some? && v[i] == v[j]
    ensures i == j
  {
    FindsPresent(v, hash, i);
    FindsPresent(v, hash, j);
  }

  /** Stopping at a free cell (or giving up) means the key is not in the table. */
  lemma FindsAbsent<K>(v: seq<Option<K>>, hash: K -> nat, k: K)
    requires MapLike(v, hash)
    requires var d := Find(v, hash(k), k); d == |v| || v[At(hash(k), d, |v|)].None?
    ensures forall i :: 0 <= i < |v| ==> v[i] != Some(k)
  {
    forall i | 0 <= i < |v| ensures v[i] != Some(k) {
      if v[i] == Some(k) {
        FindsPresent(v, hash, i);
      }
    }
  }

  /** Claiming the free cell that probing stopped at keeps every key findable. */
  lemma InsertKeepsMapLike<K>(v: seq<Option<K>>, hash: K -> nat, k: K)
    requires MapLike(v, hash)
    requires Find(v, hash(k), k) < |v|
    requires v[At(hash(k), Find(v, hash(k), k), |v|)].None?
    ensures MapLike(v[At(hash(k), Find(v, hash(k), k), |v|) := Some(k)], hash)
  {
    var n := |v|;
    var d := Find(v, hash(k), k);
    var i := At(hash(k), d, n);
    var v' := v[i := Some(k)];
    forall j | 0 <= j < n && v'[j].Some? ensures Reached(v', hash, j) {
      forall x | 0 <= x < n && OnPath(v', hash, x, j) ensures !Stops(v', x, v'[j].value) {
        if j == i {
          VisitsOnce(hash(k), x, n);
          VisitsOnce(hash(k), i, n);
          assert !Stops(v, x, k);
        } else {
          ReachedIffPathBlocked(v, hash, j);
          assert OnPath(v, hash, x, j);
        }
      }
      ReachedIffPathBlocked(v', hash, j);
    }
  }

  /** Freeing any cells keeps every remaining key findable exactly when none of them is on a remaining key's path. */
  lemma FreesKeepMapLikeIff<K>(v: seq<Option<K>>, v': seq<Option<K>>, hash: K -> nat)
    requires MapLike(v, hash) && |v'| == |v| && forall i :: 0 <= i < |v| ==> v'[i] == v[i] || v'[i].None?
    ensures MapLike(v', hash) <==>
            forall i, j :: 0 <= i < |v| && 0 <= j < |v| && v[i].Some? && v'[i].None? && v'[j].Some? ==> !OnPath(v, hash, i, j)
  {
    forall j | 0 <= j < |v| && v'[j].Some?
      ensures Reached(v', hash, j) <==> forall i :: 0 <= i < |v| && v[i].Some? && v'[i].None? ==> !OnPath(v, hash, i, j)
    {
      ReachedIffUnfreed(v, v', hash, j);
    }
  }

  lemma ReachedIffUnfreed<K>(v: seq<Option<K>>, v': seq<Option<K>>, hash: K -> nat, j: nat)
    requires MapLike(v, hash) && |v'| == |v| && forall i :: 0 <= i < |v| ==> v'[i] == v[i] || v'[i].None?
    requires j < |v| && v'[j].Some?
    ensures Reached(v', hash, j) <==> forall i :: 0 <= i < |v| && v[i].Some? && v'[i].None? ==> !OnPath(v, hash, i, j)
  {
    ReachedIffPathBlocked(v, hash, j);
    ReachedIffPathBlocked(v', hash, j);
    forall i | 0 <= i < |v| ensures OnPath(v', hash, i, j) <==> OnPath(v, hash, i, j) {
    }
    forall i | 0 <= i < |v| && OnPath(v, hash, i, j) ensures Stops(v', i, v'[j].value) <==> v[i].Some? && v'[i].None? {
      assert !Stops(v, i, v[j].value);
    }
  }

  /** In particular one cell. */
  lemma FreeKeepsMapLikeIff<K>(v: seq<Option<K>>, hash: K -> nat, i: nat)
    requires MapLike(v, hash)
    requires i < |v| && v[i].Some?
    ensures MapLike(v[i := None], hash) <==>
            forall j :: 0 <= j < |v| && j != i && v[j].Some? ==> !OnPath(v, hash, i, j)
  {
    FreesKeepMapLikeIff(v, v[i := None], hash);
  }

  /** The cell a lookup-or-insert settles on is the key's only cell, before and after. */
  lemma SettlesOnOnlyCell<K>(v: seq<Option<K>>, hash: K -> nat, k: K)
    requires MapLike(v, hash)
    ensures
      var d := Find(v, hash(k), k);
      if d == |v| then forall j :: 0 <= j < |v| ==> v[j].Some? && v[j] != Some(k)
      else
        var i := At(hash(k), d, |v|);
        && (v[i].None? || v[i] == Some(k))
        && MapLike(v[i := Some(k)], hash)
        && forall j :: 0 <= j < |v| && j != i ==> v[j] != Some(k)
  {
    var d := Find(v, hash(k), k);
    if d == |v| {
      GivesUpIffFullAndAbsent(v, hash(k), k);
    } else {
      var i := At(hash(k), d, |v|);
      if v[i].None? {
        FindsAbsent(v, hash, k);
        InsertKeepsMapLike(v, hash, k);
      } else {
        assert v[i := Some(k)] == v;
        forall j | 0 <= j < |v| && j != i ensures v[j] != Some(k) {
          if v[j] == Some(k) { KeysDistinct(v, hash, i, j); }
        }
      }
    }
  }

  // ------------------------------------------------------------------- capacity

  ghost function Keys<K(!new)>(v: seq<Option<K>>): set<K> {
    set i | 0 <= i < |v| && v[i].Some? :: v[i].value
  }

  /** How many cells are in use. */
  ghost function Used<K>(v: seq<Option<K>>): (n: nat)
    ensures n <= |v|
    ensures n == |v| <==> forall i :: 0 <= i < |v| ==> v[i].Some?
  {
    if v == [] then 0
    else
      var front := v[..|v| - 1];
      assert forall i :: 0 <= i < |front| ==> front[i] == v[i];
      Used(front) + if v[|v| - 1].Some? then 1 else 0
  }

  lemma {:induction false} UsedUpdate<K>(v: seq<Option<K>>, i: nat, c: Option<K>)
    requires i < |v|
    ensures Used(v[i := c]) == Used(v) + (if c.Some? then 1 else 0) - (if v[i].Some? then 1 else 0)
  {
    var last := |v| - 1;
    if i == last {
      assert v[i := c][..last] == v[..last];
    } else {
      UsedUpdate(v[..last], i, c);
      assert v[i := c][..last] == v[..last][i := c];
    }
  }

  lemma {:induction false} DistinctKeysCount<K(!new)>(v: seq<Option<K>>)
    requires forall i, j :: 0 <= i < j < |v| && v[i].Some? ==> v[i] != v[j]
    ensures |Keys(v)| == Used(v)
  {
    if v != [] {
      var front, last := v[..|v| - 1], v[|v| - 1];
      assert forall i :: 0 <= i < |front| ==> front[i] == v[i];
      DistinctKeysCount(front);
      if last.Some? {
        assert last.value !in Keys(front);
        assert Keys(v) == Keys(front) + {last.value};
      } else {
        assert Keys(v) == Keys(front);
      }
    }
  }

  /** A map-like table is full exactly when it holds as many keys as it has cells. */
  lemma FullIffKeyCount<K(!new)>(v: seq<Option<K>>, hash: K -> nat)
    requires MapLike(v, hash)
    ensures |Keys(v)| == Used(v) <= |v|
    ensures |Keys(v)| == |v| <==> forall i :: 0 <= i < |v| ==> v[i].Some?
  {
    forall i, j | 0 <= i < j < |v| && v[i].Some? ensures v[i] != v[j] {
      if v[i] == v[j] { KeysDistinct(v, hash, i, j); }
    }
    DistinctKeysCount(v);
  }

  lemma KeysInsert<K(!new)>(v: seq<Option<K>>, i: nat, k: K)
    requires i < |v| && (v[i].None? || v[i].value == k)
    ensures Keys(v[i := Some(k)]) == Keys(v) + {k}
  {
    var v' := v[i := Some(k)];
    assert v'[i].value == k;
    forall x | x in Keys(v) ensures x in Keys(v') {
      var j :| 0 <= j < |v| && v[j].Some? && v[j].value == x;
      assert v'[j].value == x;
    }
  }

  /**
   Lookup-or-insert on a map-like table refines lookup-or-insert on a finite map
   of bounded size: a known key keeps its cell, a new key takes one free cell while
   fewer keys than cells are held, and otherwise nothing happens.
   */
  lemma LookupOrInsertRefinesMap<K(!new)>(v: seq<Option<K>>, hash: K -> nat, k: K)
    requires MapLike(v, hash)
    ensures
      var d := Find(v, hash(k), k);
      && (d == |v| <==> k !in Keys(v) && |Keys(v)| == |v|)
      && (d < |v| ==>
            var i := At(hash(k), d, |v|);
            && (k in Keys(v) <==> v[i] == Some(k))
            && (k !in Keys(v) <==> v[i].None?)
            && MapLike(v[i := Some(k)], hash) && Keys(v[i := Some(k)]) == Keys(v) + {k})
  {
    var d := Find(v, hash(k), k);
    SettlesOnOnlyCell(v, hash, k);
    FullIffKeyCount(v, hash);
    assert k in Keys(v) <==> exists j :: 0 <= j < |v| && v[j] == Some(k);
    if d < |v| {
      var i := At(hash(k), d, |v|);
      KeysInsert(v, i, k);
      if v[i].None? {
        assert |Keys(v)| < |v|;
      }
    }
  }
}
