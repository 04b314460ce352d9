/**
 What the userspace aggregator never gets wrong, whatever arrives and whenever
 the reaper runs: every accepted packet is in exactly one live, emitted or
 reaped slot, and every emitted packet is the exact sum of the fan-in it claims.
 */
module Conservation {
  import opened GradProto
  import opened Probing
  import opened Aggregator
  import opened QuotaAccounting

  /** The packets of one slot agree with each other. */
  ghost predicate Uniform(ps: seq<Packet>, key: Key, chunkLen: int) {
    forall i :: 0 <= i < |ps| ==> ps[i].key == key && |ps[i].values| == chunkLen && Admissible(ps[i])
  }

  ghost predicate CellOk(c: Cell) {
    && HoldsSum(c.sum, c.contribs)
    && SeenExactly(c.seen, c.contribs)
    && DistinctWorkers(c.contribs)
    && Uniform(c.contribs, c.key, c.chunkLen)
    && c.received == |c.contribs|
    && (c.contribs != [] ==> c.expected == c.contribs[0].numWorkers && c.received < c.expected)
  }

  /** An emitted packet: exactly `expected` distinct workers, summed lane by lane. */
  ghost predicate EmissionOk(e: Emission) {
    && e.contribs != []
    && |e.contribs| == e.expected == e.contribs[0].numWorkers
    && DistinctWorkers(e.contribs)
    && Uniform(e.contribs, e.key, |e.values|)
    && forall i :: 0 <= i < |e.values| ==> e.values[i] == Wrap(LaneSum(e.contribs, i))
  }

  // ------------------------------------------------------------ where packets are

  /** The packets a cell currently stands for. */
  ghost function Part(c: Cell): seq<Packet> {
    if c.inUse then c.contribs else []
  }

  ghost function TimesIn(cells: seq<Cell>, x: Packet): nat {
    if cells == [] then 0 else TimesIn(cells[..|cells| - 1], x) + Times(Part(cells[|cells| - 1]), x)
  }

  ghost function TimesOut(es: seq<Emission>, x: Packet): nat {
    if es == [] then 0 else TimesOut(es[..|es| - 1], x) + Times(es[|es| - 1].contribs, x)
  }

  lemma {:induction false} TimesInUpdate(cells: seq<Cell>, i: nat, c: Cell, x: Packet)
    requires i < |cells|
    ensures TimesIn(cells[i := c], x) == TimesIn(cells, x) + Times(Part(c), x) - Times(Part(cells[i]), x)
  {
    var last := |cells| - 1;
    if i == last {
      assert cells[i := c][..last] == cells[..last];
    } else {
      TimesInUpdate(cells[..last], i, c, x);
      assert cells[i := c][..last] == cells[..last][i := c];
    }
  }

  lemma TimesInSnoc(cells: seq<Cell>, c: Cell, x: Packet)
    ensures TimesIn(cells + [c], x) == TimesIn(cells, x) + Times(Part(c), x)
  {
    assert (cells + [c])[..|cells|] == cells;
  }

  lemma TimesOutSnoc(es: seq<Emission>, e: Emission, x: Packet)
    ensures TimesOut(es + [e], x) == TimesOut(es, x) + Times(e.contribs, x)
  {
    assert (es + [e])[..|es|] == es;
  }

  /** Every accepted packet is in exactly one live, emitted or reaped slot. */
  ghost predicate Accounted(st: State) {
    forall x: Packet ::
      Times(st.accepted, x) == TimesIn(st.cells, x) + TimesOut(st.emitted, x) + TimesIn(st.reaped, x)
  }

  ghost predicate SlotsOk(st: State) {
    && Shaped(st.cells, st.jobs)
    && |st.cells| < TWO32
    && (forall i :: 0 <= i < |st.cells| && st.cells[i].inUse ==> CellOk(st.cells[i]))
  }

  ghost predicate LogsOk(st: State) {
    && (forall i :: 0 <= i < |st.emitted| ==> EmissionOk(st.emitted[i]))
    && (forall i :: 0 <= i < |st.reaped| ==> st.reaped[i].inUse && CellOk(st.reaped[i]))
  }

  ghost predicate Inv(cfg: Config, st: State) {
    SlotsOk(st) && LogsOk(st) && Accounted(st) && JobsOk(cfg, st.cells, st.jobs, st.freed)
  }

  /** Between packets no slot is empty. */
  ghost predicate Started(st: State) {
    forall i :: 0 <= i < |st.cells| && st.cells[i].inUse ==> st.cells[i].contribs != []
  }

  // --------------------------------------------------------------- preservation

  /** Rewriting a cell without changing who owns it does not disturb the counters. */
  lemma SameOwnerKeepsJobsOk(cfg: Config, st: State, i: nat, c: Cell)
    requires JobsOk(cfg, st.cells, st.jobs, st.freed)
    requires i < |st.cells| && st.cells[i].inUse && c.inUse && c.key == st.cells[i].key
    ensures JobsOk(cfg, st.cells[i := c], st.jobs, st.freed)
  {
    forall j: u32 ensures CountJob(st.cells[i := c], j) == CountJob(st.cells, j) {
      CountJobUpdate(st.cells, i, c, j);
    }
  }

  lemma ClaimedOk(key: Key)
    ensures CellOk(Claimed(key))
  {
  }

  lemma ClaimKeepsInv(cfg: Config, st: State, i: nat, key: Key, jobs: seq<JobEntry>)
    requires Inv(cfg, st) && i < |st.cells| && !st.cells[i].inUse && 0 < |jobs|
    requires JobsOk(cfg, st.cells[i := Claimed(key)], jobs, st.freed)
    ensures Inv(cfg, st.(cells := st.cells[i := Claimed(key)], jobs := jobs))
  {
    ClaimedOk(key);
    forall x: Packet ensures TimesIn(st.cells[i := Claimed(key)], x) == TimesIn(st.cells, x) {
      TimesInUpdate(st.cells, i, Claimed(key), x);
    }
  }

  lemma FindOrCreateSlotKeepsInv(cfg: Config, st: State, key: Key)
    requires Inv(cfg, st)
    ensures Inv(cfg, FindOrCreateSlot(cfg, st, key).1)
  {
    var d := Find(SlotView(st.cells), cfg.slotHash(key), key);
    if d < |st.cells| {
      var i := At(cfg.slotHash(key), d, |st.cells|);
      if !st.cells[i].inUse {
        if AdmitJob(cfg, st.jobs, key.job).0 {
          AdmittedKeepsJobsOk(cfg, st.cells, st.jobs, st.freed, i, key);
          ClaimKeepsInv(cfg, st, i, key, AdmitJob(cfg, st.jobs, key.job).1);
        } else {
          RefusedKeepsJobsOk(cfg, st.cells, st.jobs, st.freed, key.job);
        }
      }
    }
  }

  /** The slot handed out is the key's, and it was either the key's already or is fresh. */
  lemma SlotHandedOut(cfg: Config, st: State, key: Key)
    requires Shaped(st.cells, st.jobs)
    ensures var r := FindOrCreateSlot(cfg, st, key);
            if r.0.None? then r.1 == st.(jobs := r.1.jobs)
            else
              var i := r.0.value;
              && r.1 == st.(cells := st.cells[i := r.1.cells[i]], jobs := r.1.jobs)
              && r.1.cells[i].inUse && r.1.cells[i].key == key
              && r.1.cells[i] == if st.cells[i].inUse then st.cells[i] else Claimed(key)
  {
    var v := SlotView(st.cells);
    var d := Find(v, cfg.slotHash(key), key);
    if d < |st.cells| {
      var i := At(cfg.slotHash(key), d, |st.cells|);
      assert v[i] == if st.cells[i].inUse then Some(st.cells[i].key) else None;
      assert Stops(v, i, key);
      assert st.cells[i := st.cells[i]] == st.cells;
    }
  }

  /** Accumulating one new worker's packet keeps the slot's bookkeeping exact. */
  lemma AcceptingOk(c: Cell, p: Packet, now: int)
    requires CellOk(c) && Admissible(p) && p.key == c.key
    requires Latch(c, p).chunkLen == |p.values| && !c.seen[p.worker]
    ensures var c' := Accepting(Latch(c, p), p, now);
            && HoldsSum(c'.sum, c'.contribs) && SeenExactly(c'.seen, c'.contribs) && DistinctWorkers(c'.contribs)
            && Uniform(c'.contribs, c'.key, c'.chunkLen)
            && c'.received == |c'.contribs| <= c'.expected == c'.contribs[0].numWorkers
  {
    AccumulateHolds(c.sum, c.contribs, p);
    SeenSnoc(c.seen, c.contribs, p);
    WorkersBelow(c.contribs + [p], MAX_WORKERS);
    assert c.contribs != [] ==> (c.contribs + [p])[0] == c.contribs[0];
  }

  lemma EmissionOfOk(c: Cell)
    requires HoldsSum(c.sum, c.contribs) && DistinctWorkers(c.contribs) && Uniform(c.contribs, c.key, c.chunkLen)
    requires c.contribs != [] && |c.contribs| == c.expected == c.contribs[0].numWorkers
    ensures 0 <= c.chunkLen <= |c.sum| && EmissionOk(EmissionOf(c))
  {
    assert |c.contribs[0].values| == c.chunkLen;
  }

  lemma AbsorbKeepsInv(cfg: Config, st: State, i: nat, c: Cell, p: Packet)
    requires Inv(cfg, st) && i < |st.cells| && st.cells[i].inUse
    requires c.inUse && c.key == st.cells[i].key && CellOk(c) && c.contribs == st.cells[i].contribs + [p]
    ensures Inv(cfg, st.(cells := st.cells[i := c], accepted := st.accepted + [p]))
  {
    var st' := st.(cells := st.cells[i := c], accepted := st.accepted + [p]);
    SameOwnerKeepsJobsOk(cfg, st, i, c);
    forall x: Packet
      ensures Times(st'.accepted, x) == TimesIn(st'.cells, x) + TimesOut(st'.emitted, x) + TimesIn(st'.reaped, x)
    {
      TimesInUpdate(st.cells, i, c, x);
      TimesSnoc(st.accepted, p, x);
      TimesSnoc(st.cells[i].contribs, p, x);
    }
  }

  lemma CompletionAccounted(st: State, i: nat, c: Cell, p: Packet, e: Emission)
    requires Accounted(st) && i < |st.cells| && st.cells[i].inUse
    requires !c.inUse && e.contribs == st.cells[i].contribs + [p]
    ensures Accounted(st.(cells := st.cells[i := c], accepted := st.accepted + [p], emitted := st.emitted + [e]))
  {
    var st' := st.(cells := st.cells[i := c], accepted := st.accepted + [p], emitted := st.emitted + [e]);
    forall x: Packet
      ensures Times(st'.accepted, x) == TimesIn(st'.cells, x) + TimesOut(st'.emitted, x) + TimesIn(st'.reaped, x)
    {
      TimesInUpdate(st.cells, i, c, x);
      TimesSnoc(st.accepted, p, x);
      TimesSnoc(st.cells[i].contribs, p, x);
      TimesOutSnoc(st.emitted, e, x);
    }
  }

  lemma CompleteKeepsInv(cfg: Config, st: State, i: nat, c: Cell, p: Packet, e: Emission)
    requires Inv(cfg, st) && i < |st.cells| && st.cells[i].inUse
    requires |c.seen| == MAX_WORKERS && |c.sum| == MAX_CHUNK_LEN
    requires c.inUse && c.key == st.cells[i].key && EmissionOk(e) && e.contribs == st.cells[i].contribs + [p]
    ensures Inv(cfg, FreeSlot(cfg, st.(cells := st.cells[i := c], accepted := st.accepted + [p], emitted := st.emitted + [e]), i))
  {
    var cells, gone := st.cells[i := c], c.(inUse := false);
    SameOwnerKeepsJobsOk(cfg, st, i, c);
    ReleaseKeepsJobsOk(cfg, cells, st.jobs, st.freed, i);
    assert cells[i := gone] == st.cells[i := gone];
    CompletionAccounted(st, i, gone, p, e);
  }

  lemma ContributeKeepsInv(cfg: Config, st: State, i: nat, p: Packet, now: int)
    requires Inv(cfg, st) && Admissible(p)
    requires i < |st.cells| && st.cells[i].inUse && st.cells[i].key == p.key
    ensures Inv(cfg, Contribute(cfg, st, i, p, now).1)
  {
    var c := st.cells[i];
    var c1 := Latch(c, p);
    if c1.chunkLen == |p.values| {
      if c1.seen[p.worker] {
        assert Contributed(c.contribs, p.worker);
        assert st.cells[i := c1] == st.cells;
      } else {
        AcceptingOk(c, p, now);
        var c' := Accepting(c1, p, now);
        if c'.received < c'.expected {
          AbsorbKeepsInv(cfg, st, i, c', p);
        } else {
          EmissionOfOk(c');
          CompleteKeepsInv(cfg, st, i, c', p, EmissionOf(c'));
        }
      }
    }
  }

  /** The contribution was taken: it is the slot's last one, at time `now`, and no other cell changed. */
  ghost predicate Taken(st: State, st': State, i: nat, p: Packet, now: int)
    requires i < |st.cells| == |st'.cells|
  {
    && st'.accepted == st.accepted + [p] && st'.reaped == st.reaped
    && st'.cells[i].key == st.cells[i].key && st'.cells[i].contribs == st.cells[i].contribs + [p] && st'.cells[i].lastTouched == now
    && forall j :: 0 <= j < |st.cells| && j != i ==> st'.cells[j] == st.cells[j]
  }

  /** The emission of a round: its first packet's fan-in, all its packets, and their sums in every lane. */
  ghost predicate Emits(e: Emission, key: Key, round: seq<Packet>)
    requires round != []
  {
    && e.key == key && e.expected == round[0].numWorkers && e.contribs == round && |e.values| == |round[0].values|
    && forall l :: 0 <= l < |e.values| ==> e.values[l] == Wrap(LaneSum(round, l))
  }

  /**
   What a packet gets, told from the packets its slot has taken so far: refused for its
   length, refused for its worker, taken, or taken as the last one and answered.
   */
  lemma ContributeAnswers(cfg: Config, st: State, i: nat, p: Packet, now: int)
    requires SlotsOk(st) && Admissible(p)
    requires i < |st.cells| && st.cells[i].inUse && st.cells[i].key == p.key
    ensures var held, (o, st') := st.cells[i].contribs, Contribute(cfg, st, i, p, now);
            if held != [] && |held[0].values| != |p.values| then o == WrongLength && st' == st
            else if Contributed(held, p.worker) then o == Duplicate && st' == st
            else
              && Taken(st, st', i, p, now)
              && var round := held + [p];
                 if |round| < round[0].numWorkers
                 then o == Absorbed && st'.cells[i].inUse && st'.emitted == st.emitted && st'.jobs == st.jobs && st'.freed == st.freed
                 else
                   && o.Sent? && Emits(o.emission, p.key, round) && !st'.cells[i].inUse
                   && st'.emitted == st.emitted + [o.emission] && st'.freed == st.freed + [p.key.job]
  {
    var c := st.cells[i];
    if c.contribs == [] {
      assert !Contributed(c.contribs, p.worker);
    }
    var c1 := Latch(c, p);
    assert st.cells[i := c] == st.cells;
    if c1.chunkLen == |p.values| && !Contributed(c.contribs, p.worker) {
      AcceptingOk(c, p, now);
      EmissionOfSum(Accepting(c1, p, now), p.key);
    }
  }

  lemma EmissionOfSum(c: Cell, key: Key)
    requires HoldsSum(c.sum, c.contribs) && Uniform(c.contribs, c.key, c.chunkLen) && c.contribs != [] && c.key == key
    requires c.expected == c.contribs[0].numWorkers
    ensures 0 <= c.chunkLen <= |c.sum| && Emits(EmissionOf(c), key, c.contribs)
  {
    assert |c.contribs[0].values| == c.chunkLen;
  }

  lemma ContributeStarts(cfg: Config, st: State, i: nat, p: Packet, now: int)
    requires SlotsOk(st) && Admissible(p)
    requires i < |st.cells| && st.cells[i].inUse
    requires forall j :: 0 <= j < |st.cells| && j != i && st.cells[j].inUse ==> st.cells[j].contribs != []
    ensures Started(Contribute(cfg, st, i, p, now).1)
  {
    var c := st.cells[i];
    if c.contribs == [] {
      assert !Contributed(c.contribs, p.worker);
    }
  }

  lemma ProcessKeepsInv(cfg: Config, st: State, p: Packet, now: int)
    requires Inv(cfg, st)
    ensures Inv(cfg, Process(cfg, st, p, now).1)
    ensures Started(st) ==> Started(Process(cfg, st, p, now).1)
  {
    if Admissible(p) {
      FindOrCreateSlotKeepsInv(cfg, st, p.key);
      SlotHandedOut(cfg, st, p.key);
      var r := FindOrCreateSlot(cfg, st, p.key);
      if r.0.Some? {
        ContributeKeepsInv(cfg, r.1, r.0.value, p, now);
        if Started(st) {
          ContributeStarts(cfg, r.1, r.0.value, p, now);
        }
      }
    }
  }

  lemma ReapOneKeepsInv(cfg: Config, st: State, i: nat)
    requires Inv(cfg, st) && i < |st.cells| && st.cells[i].inUse
    ensures Inv(cfg, FreeSlot(cfg, st.(reaped := st.reaped + [st.cells[i]]), i))
  {
    var c := st.cells[i];
    var st' := FreeSlot(cfg, st.(reaped := st.reaped + [c]), i);
    ReleaseKeepsJobsOk(cfg, st.cells, st.jobs, st.freed, i);
    forall x: Packet
      ensures Times(st'.accepted, x) == TimesIn(st'.cells, x) + TimesOut(st'.emitted, x) + TimesIn(st'.reaped, x)
    {
      TimesInUpdate(st.cells, i, c.(inUse := false), x);
      TimesInSnoc(st.reaped, c, x);
    }
  }

  lemma {:induction false} ReapKeepsInv(cfg: Config, st: State, now: int, ttl: int, i: nat)
    requires Inv(cfg, st) && i <= |st.cells|
    ensures Inv(cfg, Reap(cfg, st, now, ttl, i))
    ensures Started(st) ==> Started(Reap(cfg, st, now, ttl, i))
    decreases |st.cells| - i
  {
    if i < |st.cells| {
      if Expired(st.cells[i], now, ttl) {
        var st' := FreeSlot(cfg, st.(reaped := st.reaped + [st.cells[i]]), i);
        ReapOneKeepsInv(cfg, st, i);
        ReapKeepsInv(cfg, st', now, ttl, i + 1);
      } else {
        ReapKeepsInv(cfg, st, now, ttl, i + 1);
      }
    }
  }

  lemma {:induction false} NothingInUse(cells: seq<Cell>)
    requires forall i :: 0 <= i < |cells| ==> !cells[i].inUse
    ensures (forall x: Packet :: TimesIn(cells, x) == 0) && (forall j: u32 :: CountJob(cells, j) == 0)
  {
    if cells != [] {
      NothingInUse(cells[..|cells| - 1]);
    }
  }

  lemma EmptyInv(cfg: Config, slots: nat, jobs: nat)
    requires 0 < slots < TWO32 && 0 < jobs
    ensures Inv(cfg, Empty(slots, jobs)) && Started(Empty(slots, jobs))
  {
    NothingInUse(Empty(slots, jobs).cells);
  }

  /** Every reachable state, under any stream of packets and sweeps. */
  lemma {:induction false} RunKeepsInv(cfg: Config, slots: nat, jobs: nat, events: seq<Event>)
    requires 0 < slots < TWO32 && 0 < jobs
    ensures Inv(cfg, Run(cfg, slots, jobs, events)) && Started(Run(cfg, slots, jobs, events))
  {
    EmptyInv(cfg, slots, jobs);
    if events != [] {
      var before := events[..|events| - 1];
      RunKeepsInv(cfg, slots, jobs, before);
      var st := Run(cfg, slots, jobs, before);
      match events[|events| - 1]
      case Arrival(p, now) =>
        ProcessKeepsInv(cfg, st, p, now);
      case Sweep(now, ttl) =>
        ReapKeepsInv(cfg, st, now, ttl, 0);
    }
  }

  // -------------------------------------------------------- conserved quantities

  ghost function Flat(cells: seq<Cell>): seq<Packet> {
    if cells == [] then [] else Flat(cells[..|cells| - 1]) + Part(cells[|cells| - 1])
  }

  ghost function FlatEmitted(es: seq<Emission>): seq<Packet> {
    if es == [] then [] else FlatEmitted(es[..|es| - 1]) + es[|es| - 1].contribs
  }

  lemma {:induction false} FlatTimes(cells: seq<Cell>, x: Packet)
    ensures Times(Flat(cells), x) == TimesIn(cells, x)
  {
    if cells != [] {
      FlatTimes(cells[..|cells| - 1], x);
    }
  }

  lemma {:induction false} FlatEmittedTimes(es: seq<Emission>, x: Packet)
    ensures Times(FlatEmitted(es), x) == TimesOut(es, x)
  {
    if es != [] {
      FlatEmittedTimes(es[..|es| - 1], x);
    }
  }

  /** Accepted packets are a rearrangement of the live, emitted and reaped ones. */
  lemma AcceptedRearranged(st: State)
    requires Accounted(st)
    ensures multiset(st.accepted) == multiset(Flat(st.cells) + FlatEmitted(st.emitted) + Flat(st.reaped))
  {
    forall x: Packet
      ensures multiset(st.accepted)[x] == multiset(Flat(st.cells) + FlatEmitted(st.emitted) + Flat(st.reaped))[x]
    {
      FlatTimes(st.cells, x);
      FlatEmittedTimes(st.emitted, x);
      FlatTimes(st.reaped, x);
      assert Times(st.accepted, x) == TimesIn(st.cells, x) + TimesOut(st.emitted, x) + TimesIn(st.reaped, x);
    }
  }

  /** Contributions and lane totals as the tables and the wire show them. */
  ghost function CountIn(cells: seq<Cell>): int {
    if cells == [] then 0
    else var c := cells[|cells| - 1]; CountIn(cells[..|cells| - 1]) + if c.inUse then c.received else 0
  }

  ghost function CountOut(es: seq<Emission>): int {
    if es == [] then 0 else CountOut(es[..|es| - 1]) + es[|es| - 1].expected
  }

  ghost function LaneIn(cells: seq<Cell>, i: nat): int {
    if cells == [] then 0
    else
      var c := cells[|cells| - 1];
      LaneIn(cells[..|cells| - 1], i) + if c.inUse && i < |c.sum| then c.sum[i] else 0
  }

  ghost function LaneOut(es: seq<Emission>, i: nat): int {
    if es == [] then 0
    else
      var e := es[|es| - 1];
      LaneOut(es[..|es| - 1], i) + if i < |e.values| then e.values[i] else 0
  }

  lemma {:induction false} CellsCarry(cells: seq<Cell>, i: nat)
    requires forall k :: 0 <= k < |cells| && cells[k].inUse ==> CellOk(cells[k])
    requires i < MAX_CHUNK_LEN
    ensures |Flat(cells)| == CountIn(cells)
    ensures Congruent(LaneIn(cells, i), LaneSum(Flat(cells), i))
  {
    if cells != [] {
      var front, c := cells[..|cells| - 1], cells[|cells| - 1];
      CellsCarry(front, i);
      LaneSumAppend(Flat(front), Part(c), i);
      WrapCongruent(LaneSum(Part(c), i));
      var lane := if c.inUse then c.sum[i] else 0;
      assert lane == Wrap(LaneSum(Part(c), i));
      CongruentSum(LaneIn(front, i), LaneSum(Flat(front), i), lane, LaneSum(Part(c), i));
    } else {
      CongruentSelf(0);
    }
  }

  lemma {:induction false} LaneBeyond(ps: seq<Packet>, i: nat)
    requires forall k :: 0 <= k < |ps| ==> |ps[k].values| <= i
    ensures LaneSum(ps, i) == 0
  {
    if ps != [] {
      LaneBeyond(ps[..|ps| - 1], i);
    }
  }

  lemma {:induction false} EmissionsCarry(es: seq<Emission>, i: nat)
    requires forall k :: 0 <= k < |es| ==> EmissionOk(es[k])
    ensures |FlatEmitted(es)| == CountOut(es)
    ensures Congruent(LaneOut(es, i), LaneSum(FlatEmitted(es), i))
  {
    if es != [] {
      var front, e := es[..|es| - 1], es[|es| - 1];
      EmissionsCarry(front, i);
      LaneSumAppend(FlatEmitted(front), e.contribs, i);
      var lane := if i < |e.values| then e.values[i] else 0;
      if i >= |e.values| {
        LaneBeyond(e.contribs, i);
      }
      WrapCongruent(LaneSum(e.contribs, i));
      assert lane == Wrap(LaneSum(e.contribs, i));
      CongruentSum(LaneOut(front, i), LaneSum(FlatEmitted(front), i), lane, LaneSum(e.contribs, i));
    } else {
      CongruentSelf(0);
    }
  }

  lemma RearrangedTotals(all: seq<Packet>, a: seq<Packet>, b: seq<Packet>, c: seq<Packet>, i: nat)
    requires multiset(all) == multiset(a + b + c)
    ensures |all| == |a| + |b| + |c|
    ensures LaneSum(all, i) == LaneSum(a, i) + LaneSum(b, i) + LaneSum(c, i)
  {
    assert |multiset(all)| == |all| && |multiset(a + b + c)| == |a + b + c|;
    LaneSumPermutation(all, a + b + c, i);
    LaneSumAppend(a + b, c, i);
    LaneSumAppend(a, b, i);
  }

  lemma Conserved(st: State, i: nat)
    requires SlotsOk(st) && LogsOk(st) && Accounted(st) && i < MAX_CHUNK_LEN
    ensures |st.accepted| == CountIn(st.cells) + CountOut(st.emitted) + CountIn(st.reaped)
    ensures Congruent(LaneIn(st.cells, i) + LaneOut(st.emitted, i) + LaneIn(st.reaped, i), LaneSum(st.accepted, i))
  {
    var live, sent, dead := Flat(st.cells), FlatEmitted(st.emitted), Flat(st.reaped);
    AcceptedRearranged(st);
    RearrangedTotals(st.accepted, live, sent, dead, i);
    CellsCarry(st.cells, i);
    EmissionsCarry(st.emitted, i);
    CellsCarry(st.reaped, i);
    CongruentSum(LaneIn(st.cells, i), LaneSum(live, i), LaneOut(st.emitted, i), LaneSum(sent, i));
    CongruentSum(LaneIn(st.cells, i) + LaneOut(st.emitted, i), LaneSum(live, i) + LaneSum(sent, i),
                 LaneIn(st.reaped, i), LaneSum(dead, i));
  }

  /**
   Conservation: in every reachable state the contributions accepted equal those
   live, emitted and reaped, in number and, lane by lane, modulo 2^32.
   */
  lemma NothingLostNothingInvented(cfg: Config, slots: nat, jobs: nat, events: seq<Event>, i: nat)
    requires 0 < slots < TWO32 && 0 < jobs && i < MAX_CHUNK_LEN
    ensures var st := Run(cfg, slots, jobs, events);
            && |st.accepted| == CountIn(st.cells) + CountOut(st.emitted) + CountIn(st.reaped)
            && Congruent(LaneIn(st.cells, i) + LaneOut(st.emitted, i) + LaneIn(st.reaped, i), LaneSum(st.accepted, i))
  {
    RunKeepsInv(cfg, slots, jobs, events);
    Conserved(Run(cfg, slots, jobs, events), i);
  }
}
