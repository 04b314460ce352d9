/**
 The parameter server: an insert-only open-addressed slot table. In noagg mode
 it sums `num_workers` raw contributions itself; in agg mode one packet closes
 a slot.
 */
module ParamServer {
  import opened GradProto
  import opened Probing

  /** One table cell. `contribs` is history: the packets summed into this slot. */
  datatype Cell = Cell(
    inUse: bool,
    key: Key,
    expected: int,
    received: int,
    sum: seq<i32>,
    chunkLen: int,
    completed: bool,
    seen: seq<bool>,
    contribs: seq<Packet>)

  /** A logged completion, with the accumulator at that moment. */
  datatype Completion = Completion(key: Key, sum: seq<i32>, contribs: seq<Packet>)

  datatype State = State(cells: seq<Cell>, completions: seq<Completion>)

  const NO_KEY := Key(0, 0, 0)
  const FREE := Cell(false, NO_KEY, 0, 0, ZeroSum(), 0, false, NoneSeen(), [])

  /** memset, then in_use and the key fields. */
  function Claimed(key: Key): Cell {
    Cell(true, key, 0, 0, ZeroSum(), 0, false, NoneSeen(), [])
  }

  function View(cells: seq<Cell>): (v: seq<Option<Key>>)
    ensures |v| == |cells|
  {
    seq(|cells|, i requires 0 <= i < |cells| => if cells[i].inUse then Some(cells[i].key) else None)
  }

  // ------------------------------------------------------------- specification

  /** find_or_create_slot: the cell that serves `key`, if any, and the table afterwards. */
  function FindOrCreate(hash: Key -> nat, cells: seq<Cell>, key: Key): (r: (Option<nat>, seq<Cell>))
    requires 0 < |cells|
    ensures |r.1| == |cells| && (r.0.Some? ==> r.0.value < |cells|)
  {
    var d := Find(View(cells), hash(key), key);
    if d == |cells| then (None, cells)
    else
      var i := At(hash(key), d, |cells|);
      (Some(i), if cells[i].inUse then cells else cells[i := Claimed(key)])
  }

  /** What the rest of the loop body does to the slot it was given. */
  function Deliver(aggMode: bool, c: Cell, p: Packet): Cell
    requires p.worker < |c.seen|
  {
    var c1 := if c.received == 0
              then c.(chunkLen := |p.values|, expected := if aggMode then 1 else p.numWorkers)
              else c;
    if c1.seen[p.worker] then c1
    else
      var received := (c1.received + 1) % TWO16;
      c1.(seen := c1.seen[p.worker := true],
          sum := Accumulate(c1.sum, p),
          received := received,
          contribs := c1.contribs + [p],
          completed := c1.completed || received == c1.expected)
  }

  /** The slot written back, and a completion logged if this packet was the last one expected. */
  function Settle(aggMode: bool, st: State, i: nat, p: Packet): (r: State)
    requires Shaped(st.cells) && i < |st.cells| && Bounded(p)
    ensures Shaped(r.cells) && |r.cells| == |st.cells|
  {
    var c := Deliver(aggMode, st.cells[i], p);
    var log := if c.completed && !st.cells[i].completed then [Completion(p.key, c.sum, c.contribs)] else [];
    State(st.cells[i := c], st.completions + log)
  }

  function Step(hash: Key -> nat, aggMode: bool, st: State, p: Packet): (r: State)
    requires Shaped(st.cells)
    ensures Shaped(r.cells) && |r.cells| == |st.cells|
  {
    if !Bounded(p) then st
    else
      var (at, cells) := FindOrCreate(hash, st.cells, p.key);
      if at.None? then st else Settle(aggMode, st.(cells := cells), at.value, p)
  }

  predicate Shaped(cells: seq<Cell>) {
    0 < |cells| && forall i :: 0 <= i < |cells| ==> |cells[i].seen| == MAX_WORKERS && |cells[i].sum| == MAX_CHUNK_LEN
  }

  function Empty(capacity: nat): (r: State)
    requires 0 < capacity
    ensures Shaped(r.cells) && |r.cells| == capacity
  {
    State(seq(capacity, i => FREE), [])
  }

  /** The table after a whole input stream. */
  function Run(hash: Key -> nat, aggMode: bool, capacity: nat, inputs: seq<Packet>): (r: State)
    requires 0 < capacity
    ensures Shaped(r.cells) && |r.cells| == capacity
  {
    if inputs == [] then Empty(capacity)
    else Step(hash, aggMode, Run(hash, aggMode, capacity, inputs[..|inputs| - 1]), inputs[|inputs| - 1])
  }

  // ------------------------------------------------------------ the real table

  class Server {
    const hash: Key -> nat
    const aggMode: bool
    const slots: array<Cell>
    ghost var completions: seq<Completion>

    ghost predicate Valid()
      reads this, slots
    {
      Shaped(slots[..])
    }

    ghost function Current(): State
      reads this, slots
    {
      State(slots[..], completions)
    }

    constructor (hash: Key -> nat, aggMode: bool, capacity: nat)
      requires 0 < capacity
      ensures Valid() && fresh(slots) && this.hash == hash && this.aggMode == aggMode
      ensures Current() == Empty(capacity)
    {
      this.hash, this.aggMode := hash, aggMode;
      slots := new Cell[capacity](i => FREE);
      completions := [];
    }

    method FindOrCreateSlot(key: Key) returns (at: Option<nat>)
      requires Valid()
      modifies slots
      ensures Valid()
      ensures (at, slots[..]) == FindOrCreate(hash, old(slots[..]), key)
    {
      var n := slots.Length;
      ghost var v := View(slots[..]);
      var probe := 0;
      while probe < n
        invariant 0 <= probe <= n
        invariant slots[..] == old(slots[..])
        invariant Find(v, hash(key), key) == Find(v, hash(key), key, probe)
      {
        var i := At(hash(key), probe, n);
        assert v[i] == if slots[i].inUse then Some(slots[i].key) else None;
        if !slots[i].inUse {
          slots[i] := Claimed(key);
          return Some(i);
        }
        if slots[i].key == key {
          return Some(i);
        }
        probe := probe + 1;
      }
      at := None;
    }

    /** The receive loop's body from the slot on. */
    method DeliverTo(i: nat, p: Packet)
      requires Valid() && i < slots.Length && Bounded(p)
      modifies this`completions, slots
      ensures Valid()
      ensures Current() == Settle(aggMode, old(Current()), i, p)
    {
      var slot := slots[i];
      if slot.received == 0 {
        slot := slot.(chunkLen := |p.values|, expected := if aggMode then 1 else p.numWorkers);
      }
      if !slot.seen[p.worker] {
        slot := slot.(seen := slot.seen[p.worker := true]);
        var sum := AccumulateLanes(slot.sum, p);
        slot := slot.(sum := sum, contribs := slot.contribs + [p], received := (slot.received + 1) % TWO16);
        if slot.received == slot.expected && !slot.completed {
          slot := slot.(completed := true);
          completions := completions + [Completion(p.key, slot.sum, slot.contribs)];
        }
      }
      slots[i] := slot;
    }

    /** The body of the receive loop. */
    method Receive(p: Packet)
      requires Valid()
      modifies this`completions, slots
      ensures Valid()
      ensures Current() == Step(hash, aggMode, old(Current()), p)
    {
      if |p.values| > MAX_CHUNK_LEN || p.worker >= MAX_WORKERS { return; }
      var at := FindOrCreateSlot(p.key);
      if at.Some? {
        DeliverTo(at.value, p);
      }
    }
  }

  // ----------------------------------------------------------------- invariant

  ghost predicate CellOk(aggMode: bool, c: Cell) {
    && HoldsSum(c.sum, c.contribs)
    && SeenExactly(c.seen, c.contribs)
    && DistinctWorkers(c.contribs)
    && c.received == |c.contribs|
    && (forall i :: 0 <= i < |c.contribs| ==> c.contribs[i].key == c.key && Bounded(c.contribs[i]))
    && (c.contribs != [] ==> c.expected == (if aggMode then 1 else c.contribs[0].numWorkers) && c.chunkLen == |c.contribs[0].values|)
    && (c.completed <==> 1 <= c.expected <= c.received)
  }

  /** The log entry was made when exactly the expected packets were in. */
  ghost predicate CompletionOk(aggMode: bool, e: Completion) {
    && e.contribs != []
    && HoldsSum(e.sum, e.contribs)
    && DistinctWorkers(e.contribs)
    && |e.contribs| == (if aggMode then 1 else e.contribs[0].numWorkers)
    && forall i :: 0 <= i < |e.contribs| ==> e.contribs[i].key == e.key && Bounded(e.contribs[i])
  }

  ghost predicate CompletedIn(cells: seq<Cell>, key: Key) {
    exists i :: 0 <= i < |cells| && cells[i].inUse && cells[i].key == key && cells[i].completed
  }

  ghost predicate Inv(hash: Key -> nat, aggMode: bool, st: State) {
    && Shaped(st.cells)
    && MapLike(View(st.cells), hash)
    && (forall i :: 0 <= i < |st.cells| && st.cells[i].inUse ==> CellOk(aggMode, st.cells[i]))
    && (forall e :: 0 <= e < |st.completions| ==>
          CompletionOk(aggMode, st.completions[e]) && CompletedIn(st.cells, st.completions[e].key))
    && (forall e, f :: 0 <= e < f < |st.completions| ==> st.completions[e].key != st.completions[f].key)
  }

  lemma DeliverKeepsCell(aggMode: bool, c: Cell, p: Packet)
    requires CellOk(aggMode, c) && Bounded(p) && p.key == c.key
    ensures CellOk(aggMode, Deliver(aggMode, c, p))
    ensures Deliver(aggMode, c, p).completed && !c.completed ==>
              var c' := Deliver(aggMode, c, p); c'.contribs != [] && c'.received == c'.expected
    ensures c.completed ==> Deliver(aggMode, c, p).completed
  {
    WorkersBelow(c.contribs, MAX_WORKERS);
    if !c.seen[p.worker] {
      assert c.contribs != [] ==> (c.contribs + [p])[0] == c.contribs[0];
      AccumulateHolds(c.sum, c.contribs, p);
      SeenSnoc(c.seen, c.contribs, p);
      WorkersBelow(c.contribs + [p], MAX_WORKERS);
    }
  }

  lemma ClaimedOk(aggMode: bool, key: Key)
    ensures CellOk(aggMode, Claimed(key))
  {
  }

  lemma FindOrCreateKeepsInv(hash: Key -> nat, aggMode: bool, st: State, key: Key)
    requires Inv(hash, aggMode, st)
    ensures var (at, cells) := FindOrCreate(hash, st.cells, key);
            && Inv(hash, aggMode, st.(cells := cells))
            && (at.Some? ==> cells[at.value].inUse && cells[at.value].key == key)
  {
    var (at, cells) := FindOrCreate(hash, st.cells, key);
    if at.Some? && !st.cells[at.value].inUse {
      var i := at.value;
      InsertKeepsMapLike(View(st.cells), hash, key);
      assert View(cells) == View(st.cells)[i := Some(key)];
      ClaimedOk(aggMode, key);
      forall e | 0 <= e < |st.completions| ensures CompletedIn(cells, st.completions[e].key) {
        assert CompletedIn(st.cells, st.completions[e].key);
        var j :| 0 <= j < |st.cells| && st.cells[j].inUse && st.cells[j].key == st.completions[e].key && st.cells[j].completed;
        assert cells[j] == st.cells[j];
      }
    }
  }

  /** Writing back a cell that kept its key, its flags and its exact sum. */
  lemma WriteBackKeepsInv(hash: Key -> nat, aggMode: bool, st: State, i: nat, c: Cell)
    requires Inv(hash, aggMode, st)
    requires i < |st.cells| && st.cells[i].inUse && c.inUse && c.key == st.cells[i].key
    requires CellOk(aggMode, c) && (st.cells[i].completed ==> c.completed)
    ensures Inv(hash, aggMode, st.(cells := st.cells[i := c]))
  {
    var cells := st.cells[i := c];
    assert View(cells) == View(st.cells);
    forall e | 0 <= e < |st.completions| ensures CompletedIn(cells, st.completions[e].key) {
      assert CompletedIn(st.cells, st.completions[e].key);
      var j :| 0 <= j < |st.cells| && st.cells[j].inUse && st.cells[j].key == st.completions[e].key && st.cells[j].completed;
      assert cells[j].completed;
    }
  }

  lemma NotYetCompleted(hash: Key -> nat, aggMode: bool, st: State, i: nat)
    requires Inv(hash, aggMode, st)
    requires i < |st.cells| && st.cells[i].inUse && !st.cells[i].completed
    ensures forall e :: 0 <= e < |st.completions| ==> st.completions[e].key != st.cells[i].key
  {
    forall e | 0 <= e < |st.completions| ensures st.completions[e].key != st.cells[i].key {
      assert CompletedIn(st.cells, st.completions[e].key);
      var j :| 0 <= j < |st.cells| && st.cells[j].inUse && st.cells[j].key == st.completions[e].key && st.cells[j].completed;
      if st.cells[j].key == st.cells[i].key {
        KeysDistinct(View(st.cells), hash, i, j);
      }
    }
  }

  lemma SettleKeepsInv(hash: Key -> nat, aggMode: bool, st: State, i: nat, p: Packet)
    requires Inv(hash, aggMode, st) && Bounded(p)
    requires i < |st.cells| && st.cells[i].inUse && st.cells[i].key == p.key
    ensures Inv(hash, aggMode, Settle(aggMode, st, i, p))
  {
    var c := Deliver(aggMode, st.cells[i], p);
    DeliverKeepsCell(aggMode, st.cells[i], p);
    WriteBackKeepsInv(hash, aggMode, st, i, c);
    if c.completed && !st.cells[i].completed {
      NotYetCompleted(hash, aggMode, st, i);
      assert st.cells[i := c][i] == c;
      assert CompletedIn(st.cells[i := c], p.key);
    }
  }

  lemma StepKeepsInv(hash: Key -> nat, aggMode: bool, st: State, p: Packet)
    requires Inv(hash, aggMode, st)
    ensures Inv(hash, aggMode, Step(hash, aggMode, st, p))
  {
    var r := FindOrCreate(hash, st.cells, p.key);
    if Bounded(p) && r.0.Some? {
      FindOrCreateKeepsInv(hash, aggMode, st, p.key);
      SettleKeepsInv(hash, aggMode, st.(cells := r.1), r.0.value, p);
    }
  }

  /** Whatever arrives, the table stays a map of exact sums and no key completes twice. */
  lemma {:induction false} RunKeepsInv(hash: Key -> nat, aggMode: bool, capacity: nat, inputs: seq<Packet>)
    requires 0 < capacity
    ensures Inv(hash, aggMode, Run(hash, aggMode, capacity, inputs))
  {
    if inputs != [] {
      RunKeepsInv(hash, aggMode, capacity, inputs[..|inputs| - 1]);
      StepKeepsInv(hash, aggMode, Run(hash, aggMode, capacity, inputs[..|inputs| - 1]), inputs[|inputs| - 1]);
    }
  }

  // --------------------------------------------------- the map it implements

  /** The table as a bounded finite map from keys to slots. */
  function MapStep(aggMode: bool, capacity: nat, m: map<Key, Cell>, p: Packet): map<Key, Cell>
    requires forall k :: k in m ==> |m[k].seen| == MAX_WORKERS
  {
    if !Bounded(p) then m
    else if p.key in m then m[p.key := Deliver(aggMode, m[p.key], p)]
    else if |m| < capacity then m[p.key := Deliver(aggMode, Claimed(p.key), p)]
    else m
  }

  function MapRun(aggMode: bool, capacity: nat, inputs: seq<Packet>): (m: map<Key, Cell>)
    ensures forall k :: k in m ==> |m[k].seen| == MAX_WORKERS
  {
    if inputs == [] then map[]
    else MapStep(aggMode, capacity, MapRun(aggMode, capacity, inputs[..|inputs| - 1]), inputs[|inputs| - 1])
  }

  /** The cells in use are exactly the entries of the map. */
  ghost predicate Represents(m: map<Key, Cell>, cells: seq<Cell>) {
    && m.Keys == Keys(View(cells))
    && forall i :: 0 <= i < |cells| && cells[i].inUse ==> cells[i].key in m && m[cells[i].key] == cells[i]
  }

  lemma OtherCellsOtherKeys(hash: Key -> nat, v: seq<Option<Key>>, i: nat, j: nat)
    requires MapLike(v, hash) && i < |v| && j < |v| && i != j && v[i].Some? && v[j].Some?
    ensures v[i].value != v[j].value
  {
    if v[i].value == v[j].value {
      KeysDistinct(v, hash, i, j);
    }
  }

  /** Replacing the cell of one key replaces the map's entry for that key. */
  lemma RepresentsUpdate(hash: Key -> nat, cells: seq<Cell>, m: map<Key, Cell>, i: nat, c: Cell)
    requires Represents(m, cells)
    requires i < |cells| && c.inUse
    requires MapLike(View(cells[i := c]), hash) && Keys(View(cells[i := c])) == Keys(View(cells)) + {c.key}
    ensures Represents(m[c.key := c], cells[i := c])
  {
    var cells', m' := cells[i := c], m[c.key := c];
    forall j | 0 <= j < |cells'| && cells'[j].inUse ensures cells'[j].key in m' && m'[cells'[j].key] == cells'[j] {
      if j != i {
        OtherCellsOtherKeys(hash, View(cells'), i, j);
        assert cells'[j] == cells[j];
      }
    }
  }

  lemma UsedBelowCapacity(v: seq<Option<Key>>, i: nat)
    requires i < |v| && v[i].None?
    ensures Used(v) < |v|
  {
  }

  lemma FindOrCreateOnMap(hash: Key -> nat, cells: seq<Cell>, key: Key)
    requires MapLike(View(cells), hash)
    ensures var (at, cells') := FindOrCreate(hash, cells, key);
            && (at.None? ==> key !in Keys(View(cells)) && |Keys(View(cells))| == |cells|)
            && (at.Some? ==>
                  && cells'[at.value].inUse && cells'[at.value].key == key
                  && cells' == cells[at.value := cells'[at.value]]
                  && MapLike(View(cells'), hash) && Keys(View(cells')) == Keys(View(cells)) + {key}
                  && if key in Keys(View(cells)) then cells' == cells
                     else cells'[at.value] == Claimed(key) && |Keys(View(cells))| < |cells|)
  {
    var v := View(cells);
    LookupOrInsertRefinesMap(v, hash, key);
    FullIffKeyCount(v, hash);
    var (at, cells') := FindOrCreate(hash, cells, key);
    if at.Some? {
      assert View(cells') == v[at.value := Some(key)];
      if !cells[at.value].inUse {
        UsedBelowCapacity(v, at.value);
      }
    }
  }

  lemma DeliveryRefinesMap(hash: Key -> nat, aggMode: bool, cells: seq<Cell>, cells': seq<Cell>, m: map<Key, Cell>, p: Packet, i: nat)
    requires Represents(m, cells) && Shaped(cells') && Bounded(p)
    requires i < |cells| == |cells'| && cells' == cells[i := cells'[i]] && cells'[i].inUse && cells'[i].key == p.key
    requires MapLike(View(cells'), hash) && Keys(View(cells')) == Keys(View(cells)) + {p.key}
    requires if p.key in m then cells' == cells else cells'[i] == Claimed(p.key)
    ensures Represents(m[p.key := Deliver(aggMode, if p.key in m then m[p.key] else Claimed(p.key), p)],
                       cells'[i := Deliver(aggMode, cells'[i], p)])
  {
    var c := Deliver(aggMode, cells'[i], p);
    assert cells'[i := c] == cells[i := c];
    assert View(cells[i := c]) == View(cells');
    RepresentsUpdate(hash, cells, m, i, c);
  }

  lemma StepRefinesMap(hash: Key -> nat, aggMode: bool, st: State, m: map<Key, Cell>, p: Packet)
    requires Shaped(st.cells) && MapLike(View(st.cells), hash) && Represents(m, st.cells)
    requires forall k :: k in m ==> |m[k].seen| == MAX_WORKERS
    ensures Represents(MapStep(aggMode, |st.cells|, m, p), Step(hash, aggMode, st, p).cells)
  {
    FindOrCreateOnMap(hash, st.cells, p.key);
    assert |m| == |m.Keys|;
    var r := FindOrCreate(hash, st.cells, p.key);
    if Bounded(p) && r.0.Some? {
      DeliveryRefinesMap(hash, aggMode, st.cells, r.1, m, p, r.0.value);
    }
  }

  /** Insert-only linear probing computes exactly what the bounded map computes, for every stream. */
  lemma {:induction false} TableRefinesMap(hash: Key -> nat, aggMode: bool, capacity: nat, inputs: seq<Packet>)
    requires 0 < capacity
    ensures MapLike(View(Run(hash, aggMode, capacity, inputs).cells), hash)
    ensures Represents(MapRun(aggMode, capacity, inputs), Run(hash, aggMode, capacity, inputs).cells)
  {
    RunKeepsInv(hash, aggMode, capacity, inputs);
    if inputs != [] {
      var front := inputs[..|inputs| - 1];
      RunKeepsInv(hash, aggMode, capacity, front);
      TableRefinesMap(hash, aggMode, capacity, front);
      StepRefinesMap(hash, aggMode, Run(hash, aggMode, capacity, front), MapRun(aggMode, capacity, front), inputs[|inputs| - 1]);
    }
  }
}
