/**
 What the parameter server answers, told from its input alone: which packets of a
 key a slot takes, when the round completes, with which packets and which sums.
 */
module Rounds {
  import opened GradProto
  import opened Probing
  import opened ParamServer

  /** The packets of a key that count: the first well-sized one from each worker, in order of arrival. */
  ghost function Heard(inputs: seq<Packet>, key: Key): seq<Packet> {
    if inputs == [] then []
    else
      var h, p := Heard(inputs[..|inputs| - 1], key), inputs[|inputs| - 1];
      if Bounded(p) && p.key == key && !Contributed(h, p.worker) then h + [p] else h
  }

  /** The fan-in a round waits for: one packet in agg mode, else what its first packet says. */
  ghost function FanIn(aggMode: bool, heard: seq<Packet>): int
    requires heard != []
  {
    if aggMode then 1 else heard[0].numWorkers
  }

  ghost predicate Complete(aggMode: bool, heard: seq<Packet>) {
    heard != [] && 1 <= FanIn(aggMode, heard) <= |heard|
  }

  ghost predicate HasSlot(cells: seq<Cell>, key: Key) {
    exists i :: 0 <= i < |cells| && cells[i].inUse && cells[i].key == key
  }

  ghost predicate Full(cells: seq<Cell>) {
    forall i :: 0 <= i < |cells| ==> cells[i].inUse
  }

  ghost predicate Logged(completions: seq<Completion>, key: Key) {
    exists e :: 0 <= e < |completions| && completions[e].key == key
  }

  lemma HeardSnoc(inputs: seq<Packet>, p: Packet, key: Key)
    ensures var h := Heard(inputs, key);
            Heard(inputs + [p], key) == if Bounded(p) && p.key == key && !Contributed(h, p.worker) then h + [p] else h
  {
    assert (inputs + [p])[..|inputs|] == inputs;
  }

  lemma {:induction false} HeardFacts(inputs: seq<Packet>, key: Key)
    ensures DistinctWorkers(Heard(inputs, key))
    ensures forall x :: x in Heard(inputs, key) ==> x in inputs && x.key == key && Bounded(x)
  {
    if inputs != [] {
      HeardFacts(inputs[..|inputs| - 1], key);
    }
  }

  /** Each worker of a key is heard, whatever else arrives. */
  lemma {:induction false} HeardEveryone(inputs: seq<Packet>, key: Key, p: Packet)
    requires p in inputs && Bounded(p) && p.key == key
    ensures Contributed(Heard(inputs, key), p.worker)
  {
    var front, last := inputs[..|inputs| - 1], inputs[|inputs| - 1];
    assert inputs == front + [last];
    HeardSnoc(front, last, key);
    var h := Heard(front, key);
    if p in front {
      HeardEveryone(front, key, p);
      ContributedSnoc(h, last, p.worker);
    } else {
      assert p == last;
      ContributedSnoc(h, p, p.worker);
    }
  }

  // ------------------------------------------------------ the table follows the input

  /** A slot takes a packet exactly when its worker is new to it. */
  lemma DeliverHears(aggMode: bool, c: Cell, p: Packet)
    requires CellOk(aggMode, c) && Bounded(p) && p.key == c.key
    ensures var c' := Deliver(aggMode, c, p);
            && CellOk(aggMode, c') && c'.inUse == c.inUse && c'.key == c.key
            && c'.contribs == (if Contributed(c.contribs, p.worker) then c.contribs else c.contribs + [p])
            && c'.contribs != [] && (Contributed(c.contribs, p.worker) ==> c' == c)
  {
    DeliverKeepsCell(aggMode, c, p);
  }

  /** A cell in use has taken exactly the packets heard. */
  ghost predicate CellFollows(c: Cell, inputs: seq<Packet>) {
    c.contribs != [] && c.contribs == Heard(inputs, c.key)
  }

  /** A completion was made by the first packets heard, as many as the first of them says. */
  ghost predicate EntryFollows(aggMode: bool, e: Completion, inputs: seq<Packet>) {
    var h := Heard(inputs, e.key);
    Complete(aggMode, h) && e.contribs == h[..FanIn(aggMode, h)]
  }

  ghost predicate Follows(aggMode: bool, st: State, inputs: seq<Packet>) {
    && (forall i :: 0 <= i < |st.cells| && st.cells[i].inUse ==> CellFollows(st.cells[i], inputs))
    && (forall key :: Heard(inputs, key) != [] ==> HasSlot(st.cells, key) || Full(st.cells))
    && (forall e :: 0 <= e < |st.completions| ==> EntryFollows(aggMode, st.completions[e], inputs))
    && (forall i :: 0 <= i < |st.cells| && st.cells[i].inUse && st.cells[i].completed ==> Logged(st.completions, st.cells[i].key))
  }

  /** A packet that is not heard does not change what is. */
  lemma NotHeard(aggMode: bool, st: State, inputs: seq<Packet>, p: Packet)
    requires Follows(aggMode, st, inputs) && Heard(inputs + [p], p.key) == Heard(inputs, p.key)
    ensures Follows(aggMode, st, inputs + [p])
  {
    forall key ensures Heard(inputs + [p], key) == Heard(inputs, key) {
      HeardSnoc(inputs, p, key);
    }
  }

  /** The table once the packet's slot is found, before it is delivered. */
  ghost predicate FollowsAt(aggMode: bool, st: State, inputs: seq<Packet>, i: nat, key: Key)
    requires i < |st.cells|
  {
    && (forall j :: 0 <= j < |st.cells| && j != i && st.cells[j].inUse ==> CellFollows(st.cells[j], inputs) && st.cells[j].key != key)
    && st.cells[i].contribs == Heard(inputs, key)
    && (forall k :: Heard(inputs, k) != [] ==> HasSlot(st.cells, k) || Full(st.cells))
    && (forall e :: 0 <= e < |st.completions| ==> EntryFollows(aggMode, st.completions[e], inputs))
    && (forall j :: 0 <= j < |st.cells| && st.cells[j].inUse && st.cells[j].completed ==> Logged(st.completions, st.cells[j].key))
  }

  lemma SlotIffKey(cells: seq<Cell>, key: Key)
    ensures HasSlot(cells, key) <==> key in Keys(View(cells))
  {
    var v := View(cells);
    if key in Keys(v) {
      var i :| 0 <= i < |v| && v[i].Some? && v[i].value == key;
      assert cells[i].inUse && cells[i].key == key;
    }
    if HasSlot(cells, key) {
      var i :| 0 <= i < |cells| && cells[i].inUse && cells[i].key == key;
      assert v[i] == Some(key);
    }
  }

  lemma ViewFull(cells: seq<Cell>)
    ensures Full(cells) <==> forall i :: 0 <= i < |View(cells)| ==> View(cells)[i].Some?
  {
    var v := View(cells);
    assert forall i :: 0 <= i < |cells| ==> (v[i].Some? <==> cells[i].inUse);
    if forall i :: 0 <= i < |v| ==> v[i].Some? {
      forall i | 0 <= i < |cells| ensures cells[i].inUse {
        assert v[i].Some?;
      }
    }
  }

  lemma FullIffKeys(hash: Key -> nat, cells: seq<Cell>)
    requires MapLike(View(cells), hash)
    ensures Full(cells) <==> |Keys(View(cells))| == |cells|
  {
    ViewFull(cells);
    FullIffKeyCount(View(cells), hash);
  }

  /** The key's slot was there, or it is new and nothing of the key was heard so far. */
  lemma FoundHolds(hash: Key -> nat, aggMode: bool, st: State, inputs: seq<Packet>, key: Key)
    requires MapLike(View(st.cells), hash) && Follows(aggMode, st, inputs)
    ensures var (at, cells) := FindOrCreate(hash, st.cells, key);
            if at.None? then !HasSlot(st.cells, key) && Full(st.cells) && cells == st.cells
            else
              && cells[at.value].inUse && cells[at.value].key == key && cells[at.value].contribs == Heard(inputs, key)
              && cells == st.cells[at.value := cells[at.value]]
              && (cells == st.cells || (!st.cells[at.value].inUse && cells[at.value] == Claimed(key)))
              && MapLike(View(cells), hash)
  {
    FindOrCreateOnMap(hash, st.cells, key);
    SlotIffKey(st.cells, key);
    FullIffKeys(hash, st.cells);
    var (at, cells) := FindOrCreate(hash, st.cells, key);
    if at.Some? {
      assert key in Keys(View(st.cells)) ==> CellFollows(cells[at.value], inputs);
    }
  }

  /** The slot handed out leaves the table as told by the input. */
  lemma FoundFollows(hash: Key -> nat, aggMode: bool, st: State, inputs: seq<Packet>, key: Key, cells: seq<Cell>, i: nat)
    requires Inv(hash, aggMode, st) && Follows(aggMode, st, inputs)
    requires i < |cells| == |st.cells| && cells == st.cells[i := cells[i]] && MapLike(View(cells), hash)
    requires cells[i].inUse && cells[i].key == key && cells[i].contribs == Heard(inputs, key)
    requires cells == st.cells || (!st.cells[i].inUse && cells[i] == Claimed(key))
    ensures FollowsAt(aggMode, st.(cells := cells), inputs, i, key)
  {
    forall j | 0 <= j < |cells| && j != i && cells[j].inUse ensures CellFollows(cells[j], inputs) && cells[j].key != key {
      OtherCellsOtherKeys(hash, View(cells), i, j);
      assert cells[j] == st.cells[j];
    }
    forall k | HasSlot(st.cells, k) ensures HasSlot(cells, k) {
      var j :| 0 <= j < |st.cells| && st.cells[j].inUse && st.cells[j].key == k;
      assert cells[j].inUse && cells[j].key == k;
    }
  }

  lemma EntryGrows(aggMode: bool, e: Completion, inputs: seq<Packet>, p: Packet)
    requires EntryFollows(aggMode, e, inputs)
    ensures EntryFollows(aggMode, e, inputs + [p])
  {
    HeardSnoc(inputs, p, e.key);
    var h := Heard(inputs, e.key);
    assert (h + [p])[0] == h[0] && forall n :: 0 <= n <= |h| ==> (h + [p])[..n] == h[..n];
  }

  lemma LoggedStays(log: seq<Completion>, more: seq<Completion>, key: Key)
    requires Logged(log, key)
    ensures Logged(log + more, key)
  {
    var e :| 0 <= e < |log| && log[e].key == key;
    assert (log + more)[e].key == key;
  }

  /** A completion logged now was made by everything heard. */
  lemma NewEntryFollows(aggMode: bool, c: Cell, p: Packet, inputs: seq<Packet>)
    requires CellOk(aggMode, c) && Bounded(p) && p.key == c.key && c.contribs == Heard(inputs, p.key)
    requires !c.completed && Deliver(aggMode, c, p).completed
    ensures var c' := Deliver(aggMode, c, p); EntryFollows(aggMode, Completion(p.key, c'.sum, c'.contribs), inputs + [p])
  {
    var h, c' := c.contribs, Deliver(aggMode, c, p);
    DeliverHears(aggMode, c, p);
    HeardSnoc(inputs, p, p.key);
    assert h != [] ==> (h + [p])[0] == h[0];
    assert c'.contribs == h + [p] && c'.expected == |h| + 1;
  }

  lemma SettleFollows(aggMode: bool, st: State, inputs: seq<Packet>, i: nat, p: Packet)
    requires Shaped(st.cells) && i < |st.cells| && st.cells[i].inUse && st.cells[i].key == p.key && Bounded(p)
    requires CellOk(aggMode, st.cells[i]) && FollowsAt(aggMode, st, inputs, i, p.key)
    ensures Follows(aggMode, Settle(aggMode, st, i, p), inputs + [p])
  {
    var c := st.cells[i];
    var c', st' := Deliver(aggMode, c, p), Settle(aggMode, st, i, p);
    DeliverHears(aggMode, c, p);
    forall key ensures Heard(inputs + [p], key) == if key == p.key then c'.contribs else Heard(inputs, key) {
      HeardSnoc(inputs, p, key);
    }
    forall key | Heard(inputs + [p], key) != [] ensures HasSlot(st'.cells, key) || Full(st'.cells) {
      SlotsStay(st.cells, i, c', key);
    }
    forall e | 0 <= e < |st'.completions| ensures EntryFollows(aggMode, st'.completions[e], inputs + [p]) {
      if e < |st.completions| {
        EntryGrows(aggMode, st.completions[e], inputs, p);
      } else {
        NewEntryFollows(aggMode, c, p, inputs);
      }
    }
    CompletedLogged(aggMode, st, i, p);
  }

  lemma SlotsStay(cells: seq<Cell>, i: nat, c: Cell, key: Key)
    requires i < |cells| && cells[i].inUse && c.inUse && c.key == cells[i].key
    ensures HasSlot(cells, key) ==> HasSlot(cells[i := c], key)
    ensures HasSlot(cells[i := c], c.key)
    ensures Full(cells) ==> Full(cells[i := c])
  {
    assert cells[i := c][i] == c;
    if HasSlot(cells, key) {
      var j :| 0 <= j < |cells| && cells[j].inUse && cells[j].key == key;
      assert cells[i := c][j].key == key;
    }
  }

  lemma CompletedLogged(aggMode: bool, st: State, i: nat, p: Packet)
    requires Shaped(st.cells) && i < |st.cells| && st.cells[i].inUse && st.cells[i].key == p.key && Bounded(p)
    requires forall j :: 0 <= j < |st.cells| && st.cells[j].inUse && st.cells[j].completed ==> Logged(st.completions, st.cells[j].key)
    ensures var st' := Settle(aggMode, st, i, p);
            forall j :: 0 <= j < |st'.cells| && st'.cells[j].inUse && st'.cells[j].completed ==> Logged(st'.completions, st'.cells[j].key)
  {
    var st' := Settle(aggMode, st, i, p);
    var more := st'.completions[|st.completions|..];
    assert st'.completions == st.completions + more;
    forall j | 0 <= j < |st'.cells| && st'.cells[j].inUse && st'.cells[j].completed ensures Logged(st'.completions, st'.cells[j].key) {
      if st.cells[j].completed {
        LoggedStays(st.completions, more, st.cells[j].key);
      } else {
        assert j == i && st'.completions[|st.completions|].key == p.key;
      }
    }
  }

  lemma StepFollows(hash: Key -> nat, aggMode: bool, st: State, inputs: seq<Packet>, p: Packet)
    requires Inv(hash, aggMode, st) && Follows(aggMode, st, inputs)
    ensures Follows(aggMode, Step(hash, aggMode, st, p), inputs + [p])
    ensures Contributed(Heard(inputs, p.key), p.worker) ==> Step(hash, aggMode, st, p) == st
  {
    HeardSnoc(inputs, p, p.key);
    if !Bounded(p) {
      NotHeard(aggMode, st, inputs, p);
    } else {
      FoundHolds(hash, aggMode, st, inputs, p.key);
      FindOrCreateKeepsInv(hash, aggMode, st, p.key);
      var (at, cells) := FindOrCreate(hash, st.cells, p.key);
      if at.None? {
        FullKeeps(aggMode, st, inputs, p);
      } else {
        FoundFollows(hash, aggMode, st, inputs, p.key, cells, at.value);
        SettleFollows(aggMode, st.(cells := cells), inputs, at.value, p);
        DeliverHears(aggMode, cells[at.value], p);
      }
    }
  }

  /** Once the table is full, packets of keys without a slot pass it by for good. */
  lemma FullKeeps(aggMode: bool, st: State, inputs: seq<Packet>, p: Packet)
    requires Follows(aggMode, st, inputs) && Full(st.cells) && !HasSlot(st.cells, p.key)
    ensures Follows(aggMode, st, inputs + [p])
  {
    forall key | key != p.key ensures Heard(inputs + [p], key) == Heard(inputs, key) {
      HeardSnoc(inputs, p, key);
    }
    forall e | 0 <= e < |st.completions| ensures EntryFollows(aggMode, st.completions[e], inputs + [p]) {
      EntryGrows(aggMode, st.completions[e], inputs, p);
    }
  }

  /** At every moment the table and the log are what the input so far makes them. */
  lemma {:induction false} RunFollows(hash: Key -> nat, aggMode: bool, capacity: nat, inputs: seq<Packet>)
    requires 0 < capacity
    ensures Follows(aggMode, Run(hash, aggMode, capacity, inputs), inputs)
  {
    if inputs != [] {
      var front := inputs[..|inputs| - 1];
      RunFollows(hash, aggMode, capacity, front);
      RunKeepsInv(hash, aggMode, capacity, front);
      StepFollows(hash, aggMode, Run(hash, aggMode, capacity, front), front, inputs[|inputs| - 1]);
      assert front + [inputs[|inputs| - 1]] == inputs;
    }
  }

  // ------------------------------------------------------------------ the theorems

  /** The entry that a complete round leaves in the log: the first packets heard, summed in every lane. */
  ghost predicate RoundLogged(completions: seq<Completion>, key: Key, round: seq<Packet>) {
    exists e :: 0 <= e < |completions| && completions[e].key == key && completions[e].contribs == round && HoldsSum(completions[e].sum, round)
  }

  ghost predicate LoggedOnce(completions: seq<Completion>, key: Key) {
    Logged(completions, key) &&
    forall e, f :: 0 <= e < f < |completions| && completions[e].key == key ==> completions[f].key != key
  }

  /**
   A round completes exactly when the key has a slot and as many different workers
   were heard as its first packet says, and it completes once, with those packets.
   */
  lemma CompletesIff(hash: Key -> nat, aggMode: bool, capacity: nat, inputs: seq<Packet>, key: Key)
    requires 0 < capacity
    ensures var st, h := Run(hash, aggMode, capacity, inputs), Heard(inputs, key);
            && (Logged(st.completions, key) <==> HasSlot(st.cells, key) && Complete(aggMode, h))
            && (Logged(st.completions, key) ==>
                  LoggedOnce(st.completions, key) && RoundLogged(st.completions, key, h[..FanIn(aggMode, h)]))
  {
    var st, h := Run(hash, aggMode, capacity, inputs), Heard(inputs, key);
    RunFollows(hash, aggMode, capacity, inputs);
    RunKeepsInv(hash, aggMode, capacity, inputs);
    if Logged(st.completions, key) {
      var e :| 0 <= e < |st.completions| && st.completions[e].key == key;
      assert EntryFollows(aggMode, st.completions[e], inputs) && CompletionOk(aggMode, st.completions[e]);
      assert CompletedIn(st.cells, key);
    }
    if HasSlot(st.cells, key) && Complete(aggMode, h) {
      var i :| 0 <= i < |st.cells| && st.cells[i].inUse && st.cells[i].key == key;
      assert CellFollows(st.cells[i], inputs) && CellOk(aggMode, st.cells[i]);
    }
  }

  /** The keys of all well-sized packets. */
  ghost function KeysOf(inputs: seq<Packet>): set<Key> {
    set i | 0 <= i < |inputs| && Bounded(inputs[i]) :: inputs[i].key
  }

  /** While the keys fit the table, every one of them has a slot. */
  lemma EveryKeyServed(hash: Key -> nat, aggMode: bool, capacity: nat, inputs: seq<Packet>, p: Packet)
    requires 0 < capacity && |KeysOf(inputs)| <= capacity && p in inputs && Bounded(p)
    ensures HasSlot(Run(hash, aggMode, capacity, inputs).cells, p.key)
  {
    var st := Run(hash, aggMode, capacity, inputs);
    RunFollows(hash, aggMode, capacity, inputs);
    RunKeepsInv(hash, aggMode, capacity, inputs);
    HeardEveryone(inputs, p.key, p);
    if !HasSlot(st.cells, p.key) {
      FullIffKeys(hash, st.cells);
      SlotIffKey(st.cells, p.key);
      var i :| 0 <= i < |inputs| && inputs[i] == p;
      assert p.key in KeysOf(inputs);
      forall key | key in Keys(View(st.cells)) ensures key in KeysOf(inputs) {
        SlotIffKey(st.cells, key);
        ServedWasSent(st, aggMode, inputs, key);
      }
      SmallerSet(Keys(View(st.cells)), KeysOf(inputs), p.key);
    }
  }

  lemma ServedWasSent(st: State, aggMode: bool, inputs: seq<Packet>, key: Key)
    requires Follows(aggMode, st, inputs) && HasSlot(st.cells, key)
    ensures key in KeysOf(inputs)
  {
    var i :| 0 <= i < |st.cells| && st.cells[i].inUse && st.cells[i].key == key;
    assert CellFollows(st.cells[i], inputs);
    HeardFacts(inputs, key);
    var x := Heard(inputs, key)[0];
    var j :| 0 <= j < |inputs| && inputs[j] == x;
  }

  ghost predicate Sent(inputs: seq<Packet>, key: Key, w: int) {
    exists x :: x in inputs && Bounded(x) && x.key == key && x.worker == w
  }

  /** All `n` workers of the key sent, and every packet of the key says `n`. */
  ghost predicate AllSent(inputs: seq<Packet>, key: Key, n: nat) {
    && (forall w :: 0 <= w < n ==> Sent(inputs, key, w))
    && (forall x :: x in inputs && Bounded(x) && x.key == key ==> x.numWorkers == n)
  }

  lemma AllHeard(inputs: seq<Packet>, key: Key, n: nat)
    requires AllSent(inputs, key, n)
    ensures n <= |Heard(inputs, key)|
    ensures forall x :: x in Heard(inputs, key) ==> x.numWorkers == n
  {
    var h := Heard(inputs, key);
    HeardFacts(inputs, key);
    forall w | w in Below(n) ensures w in WorkerSet(h) {
      assert Sent(inputs, key, w);
      var x :| x in inputs && Bounded(x) && x.key == key && x.worker == w;
      HeardEveryone(inputs, key, x);
    }
    WorkerSetSize(h);
    SubsetSize(Below(n), WorkerSet(h));
  }

  /**
   A noagg server that gets a packet from each of a round's n workers, in any order
   and with anything else in between, completes the round exactly once, with n
   packets from different workers and their sums, as long as the key got a slot.
   */
  lemma FullRoundCompletes(hash: Key -> nat, capacity: nat, inputs: seq<Packet>, key: Key, n: nat) returns (round: seq<Packet>)
    requires 0 < capacity && 1 <= n && AllSent(inputs, key, n)
    requires HasSlot(Run(hash, false, capacity, inputs).cells, key)
    ensures var log := Run(hash, false, capacity, inputs).completions;
            LoggedOnce(log, key) && RoundLogged(log, key, round)
    ensures |round| == n && DistinctWorkers(round) && forall x :: x in round ==> x in inputs && x.key == key && x.numWorkers == n
  {
    AllHeard(inputs, key, n);
    HeardFacts(inputs, key);
    CompletesIff(hash, false, capacity, inputs, key);
    var h := Heard(inputs, key);
    assert h[0] in h;
    round := h[..n];
    assert forall x :: x in round ==> x in h;
  }

  /** An agg-mode server completes a round with the first packet of its key that has a slot. */
  lemma FirstPacketCompletes(hash: Key -> nat, capacity: nat, inputs: seq<Packet>, p: Packet)
    requires 0 < capacity && p in inputs && Bounded(p)
    requires HasSlot(Run(hash, true, capacity, inputs).cells, p.key)
    ensures var log, h := Run(hash, true, capacity, inputs).completions, Heard(inputs, p.key);
            h != [] && LoggedOnce(log, p.key) && RoundLogged(log, p.key, [h[0]])
  {
    HeardEveryone(inputs, p.key, p);
    CompletesIff(hash, true, capacity, inputs, p.key);
    var h := Heard(inputs, p.key);
    assert h[..1] == [h[0]];
  }

  /** A packet from a worker that was heard already changes neither table nor log. */
  lemma RetransmissionIgnored(hash: Key -> nat, aggMode: bool, capacity: nat, inputs: seq<Packet>, p: Packet)
    requires 0 < capacity && Contributed(Heard(inputs, p.key), p.worker)
    ensures Run(hash, aggMode, capacity, inputs + [p]) == Run(hash, aggMode, capacity, inputs)
  {
    RunFollows(hash, aggMode, capacity, inputs);
    RunKeepsInv(hash, aggMode, capacity, inputs);
    StepFollows(hash, aggMode, Run(hash, aggMode, capacity, inputs), inputs, p);
    assert (inputs + [p])[..|inputs|] == inputs;
  }

  // ------------------------------------------------------------ a forwarded packet

  /** What an aggregator sends for a round: worker 0 of 1. */
  ghost predicate Standalone(q: Packet) {
    Bounded(q) && q.worker == 0 && q.numWorkers == 1
  }

  lemma OnlyOneHeard(inputs: seq<Packet>, q: Packet)
    requires inputs == [q] && Bounded(q)
    ensures Heard(inputs, q.key) == [q]
  {
    HeardSnoc([], q, q.key);
    assert [] + [q] == [q];
  }

  lemma SumOfOne(sum: seq<i32>, q: Packet)
    requires HoldsSum(sum, [q])
    ensures forall i :: 0 <= i < |sum| ==> sum[i] == Lane(q, i)
  {
    forall i | 0 <= i < |sum| ensures sum[i] == Lane(q, i) {
      LaneSumSnoc([], q, i);
      assert [] + [q] == [q];
      WrapInRange(Lane(q, i));
    }
  }

  /** Once one packet of a round's kind was received, another one of its key changes nothing. */
  lemma StandaloneAgain(hash: Key -> nat, aggMode: bool, capacity: nat, inputs: seq<Packet>, q: Packet, again: Packet)
    requires 0 < capacity && q in inputs && Standalone(q) && Standalone(again) && again.key == q.key
    ensures Run(hash, aggMode, capacity, inputs + [again]) == Run(hash, aggMode, capacity, inputs)
  {
    HeardEveryone(inputs, q.key, q);
    RetransmissionIgnored(hash, aggMode, capacity, inputs, again);
  }

  /**
   A packet that stands for a whole round closes its slot alone, at a server in
   either mode: the only completion, with the packet's own values.
   */
  lemma StandaloneCloses(hash: Key -> nat, aggMode: bool, capacity: nat, q: Packet)
    requires 0 < capacity && Standalone(q)
    ensures var log := Run(hash, aggMode, capacity, [q]).completions;
            |log| == 1 && log[0].key == q.key && |log[0].sum| == MAX_CHUNK_LEN && forall i :: 0 <= i < MAX_CHUNK_LEN ==> log[0].sum[i] == Lane(q, i)
  {
    var inputs := [q];
    OnlyOneHeard(inputs, q);
    OneKeyOnly(inputs, q);
    EveryKeyServed(hash, aggMode, capacity, inputs, q);
    CompletesIff(hash, aggMode, capacity, inputs, q.key);
    assert [q][..1] == [q];
    OneEntry(hash, aggMode, capacity, q);
    SumOfOne(Run(hash, aggMode, capacity, inputs).completions[0].sum, q);
  }

  lemma OneKeyOnly(inputs: seq<Packet>, q: Packet)
    requires inputs == [q] && Bounded(q)
    ensures |KeysOf(inputs)| == 1
  {
    assert inputs[0].key in KeysOf(inputs);
    assert KeysOf(inputs) == {q.key};
  }

  /** A log that holds the key of the only packet has one entry. */
  lemma OneEntry(hash: Key -> nat, aggMode: bool, capacity: nat, q: Packet)
    requires 0 < capacity && Logged(Run(hash, aggMode, capacity, [q]).completions, q.key)
    requires RoundLogged(Run(hash, aggMode, capacity, [q]).completions, q.key, [q])
    ensures var log := Run(hash, aggMode, capacity, [q]).completions;
            |log| == 1 && log[0].key == q.key && HoldsSum(log[0].sum, [q])
  {
    assert [q][..0] == [];
    assert Run(hash, aggMode, capacity, []) == Empty(capacity);
  }
}
