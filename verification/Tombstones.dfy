/**
 Freeing without a tombstone: exactly when the userspace slot table stops being
 a map, and a four-packet run in which it does and a round is split.
 */
module Tombstones {
  import opened GradProto
  import opened Probing
  import opened Aggregator
  import opened QuotaAccounting
  import opened Conservation
  import opened Reaper

  /** The cell lies on no other live key's probe path. */
  ghost predicate HarmlessToFree(cfg: Config, cells: seq<Cell>, i: nat)
    requires i < |cells|
  {
    var v := SlotView(cells);
    forall j :: 0 <= j < |v| && j != i && v[j].Some? ==> !OnPath(v, cfg.slotHash, i, j)
  }

  /** free_slot keeps every live key findable exactly when the cell is harmless to free. */
  lemma FreeSlotKeepsFindableIff(cfg: Config, st: State, i: nat)
    requires Shaped(st.cells, st.jobs) && i < |st.cells| && st.cells[i].inUse
    requires MapLike(SlotView(st.cells), cfg.slotHash)
    ensures MapLike(SlotView(FreeSlot(cfg, st, i).cells), cfg.slotHash) <==> HarmlessToFree(cfg, st.cells, i)
  {
    assert SlotView(FreeSlot(cfg, st, i).cells) == SlotView(st.cells)[i := None];
    FreeKeepsMapLikeIff(SlotView(st.cells), cfg.slotHash, i);
  }

  lemma ClaimKeepsFindable(cfg: Config, st: State, key: Key)
    requires Shaped(st.cells, st.jobs) && MapLike(SlotView(st.cells), cfg.slotHash)
    ensures MapLike(SlotView(FindOrCreateSlot(cfg, st, key).1.cells), cfg.slotHash)
  {
    var v := SlotView(st.cells);
    var d := Find(v, cfg.slotHash(key), key);
    if d < |v| {
      var i := At(cfg.slotHash(key), d, |v|);
      SettlesOnOnlyCell(v, cfg.slotHash, key);
      if !st.cells[i].inUse {
        assert SlotView(st.cells[i := Claimed(key)]) == v[i := Some(key)];
      }
    }
  }

  /** The slot a packet was handed has its length, has not heard its worker, and lacks only this contribution. */
  predicate LacksOnly(c: Cell, p: Packet)
    requires p.worker < |c.seen|
  {
    if c.received == 0 then !c.seen[p.worker] && p.numWorkers <= 1
    else c.chunkLen == |p.values| && !c.seen[p.worker] && (c.received + 1) % TWO16 >= c.expected
  }

  /** A contribution frees its cell when it is the last one, and otherwise leaves every key in place. */
  lemma ContributeView(cfg: Config, st: State, i: nat, p: Packet, now: int)
    requires Shaped(st.cells, st.jobs) && i < |st.cells| && st.cells[i].inUse && Bounded(p)
    ensures SlotView(Contribute(cfg, st, i, p, now).1.cells) ==
            if LacksOnly(st.cells[i], p) then SlotView(st.cells)[i := None] else SlotView(st.cells)
  {
    var c := Latch(st.cells[i], p);
    var c' := Accepting(c, p, now);
    if LacksOnly(st.cells[i], p) {
      assert st.cells[i := c'][i := c'.(inUse := false)] == st.cells[i := c'.(inUse := false)];
    }
  }

  lemma ContributeKeepsFindableIff(cfg: Config, st: State, i: nat, p: Packet, now: int)
    requires Shaped(st.cells, st.jobs) && MapLike(SlotView(st.cells), cfg.slotHash)
    requires i < |st.cells| && st.cells[i].inUse && Bounded(p)
    ensures MapLike(SlotView(Contribute(cfg, st, i, p, now).1.cells), cfg.slotHash) <==>
            (LacksOnly(st.cells[i], p) ==> HarmlessToFree(cfg, st.cells, i))
  {
    ContributeView(cfg, st, i, p, now);
    FreeKeepsMapLikeIff(SlotView(st.cells), cfg.slotHash, i);
  }

  /**
   Of everything a packet can do, only completing its slot can hide a key, and it
   does so exactly when the slot's cell lies on another live key's path. Both can be
   told before the packet is processed.
   */
  lemma PacketKeepsFindableIff(cfg: Config, st: State, p: Packet, now: int)
    requires Shaped(st.cells, st.jobs) && MapLike(SlotView(st.cells), cfg.slotHash)
    ensures var r := FindOrCreateSlot(cfg, st, p.key);
            MapLike(SlotView(Process(cfg, st, p, now).1.cells), cfg.slotHash) <==>
            (Admissible(p) && r.0.Some? && LacksOnly(r.1.cells[r.0.value], p) ==> HarmlessToFree(cfg, r.1.cells, r.0.value))
  {
    if Admissible(p) {
      var r := FindOrCreateSlot(cfg, st, p.key);
      ClaimKeepsFindable(cfg, st, p.key);
      SlotHandedOut(cfg, st, p.key);
      if r.0.Some? {
        ContributeKeepsFindableIff(cfg, r.1, r.0.value, p, now);
      }
    }
  }

  /** No expired cell lies on the probe path of a live key that survives the sweep. */
  ghost predicate HarmlessToSweep(cfg: Config, cells: seq<Cell>, now: int, ttl: int) {
    forall i, j :: 0 <= i < |cells| && 0 <= j < |cells| && Expired(cells[i], now, ttl) && cells[j].inUse && !Expired(cells[j], now, ttl)
      ==> !OnPath(SlotView(cells), cfg.slotHash, i, j)
  }

  lemma SweptView(cfg: Config, st: State, now: int, ttl: int)
    requires Shaped(st.cells, st.jobs)
    ensures var v, v' := SlotView(st.cells), SlotView(Reap(cfg, st, now, ttl).cells);
            |v'| == |v| && forall i :: 0 <= i < |v| ==> v'[i] == if Expired(st.cells[i], now, ttl) then None else v[i]
  {
    SweepExact(cfg, st, now, ttl, 0);
  }

  /** A sweep, which frees many cells at once, keeps every surviving key findable exactly when it is harmless. */
  lemma SweepKeepsFindableIff(cfg: Config, st: State, now: int, ttl: int)
    requires Shaped(st.cells, st.jobs) && MapLike(SlotView(st.cells), cfg.slotHash)
    ensures MapLike(SlotView(Reap(cfg, st, now, ttl).cells), cfg.slotHash) <==> HarmlessToSweep(cfg, st.cells, now, ttl)
  {
    SweptView(cfg, st, now, ttl);
    FreesKeepMapLikeIff(SlotView(st.cells), SlotView(Reap(cfg, st, now, ttl).cells), cfg.slotHash);
  }

  // ------------------------------------------------------------ the witness run

  const ROUND_A := Key(1, 0, 0)
  const ROUND_B := Key(1, 1, 0)

  function From(key: Key, worker: u16): Packet {
    Packet(key, worker, 2, [])
  }

  /** Two rounds of one two-worker job that hash alike; round A completes between B's packets. */
  function Interleaved(): seq<Event> {
    [Arrival(From(ROUND_A, 0), 1), Arrival(From(ROUND_B, 0), 2), Arrival(From(ROUND_A, 1), 3), Arrival(From(ROUND_B, 1), 4)]
  }

  function Colliding(): Config {
    Config(_ => 0, _ => 0, 0)
  }

  /** A packet whose probe ends at a free cell opens its slot there. */
  lemma OpensAt(st: State, i: nat, p: Packet, now: int)
    requires Shaped(st.cells, st.jobs) && |st.cells| == 2 && |st.jobs| == 1 && i < 2 && !st.cells[i].inUse
    requires Find(SlotView(st.cells), 0, p.key) == i
    requires Admissible(p) && p.numWorkers == 2
    ensures Process(Colliding(), st, p, now).1.cells == st.cells[i := Accepting(Latch(Claimed(p.key), p), p, now)]
  {
    var cfg := Colliding();
    assert At(0, 0, 2) == 0 && At(0, 1, 2) == 1;
    assert cfg.slotHash(p.key) == 0;
    assert AdmitJob(cfg, st.jobs, p.key.job).0;
    var r := FindOrCreateSlot(cfg, st, p.key);
    assert r.0 == Some(i) && r.1.cells == st.cells[i := Claimed(p.key)];
    var c := Latch(Claimed(p.key), p);
    assert !c.seen[p.worker] && Accepting(c, p, now).received == 1;
  }

  /** Packet 3 completes round A in cell 0, on the probe path of round B in cell 1. */
  lemma SecondPacketOfA(st: State, now: int)
    requires Shaped(st.cells, st.jobs) && |st.cells| == 2 && |st.jobs| == 1
    requires st.cells[0] == Accepting(Latch(Claimed(ROUND_A), From(ROUND_A, 0)), From(ROUND_A, 0), 1)
    ensures var cells := Process(Colliding(), st, From(ROUND_A, 1), now).1.cells;
            |cells| == 2 && !cells[0].inUse && cells[1] == st.cells[1]
  {
    var cfg, v := Colliding(), SlotView(st.cells);
    assert At(0, 0, 2) == 0;
    assert Stops(v, 0, ROUND_A);
    assert Find(v, 0, ROUND_A) == 0;
    assert cfg.slotHash(ROUND_A) == 0;
    assert FindOrCreateSlot(cfg, st, ROUND_A) == (Some(0), st);
  }

  /**
   After the run round B has heard from both of its workers, yet holds two cells
   with one contribution each: the round is split over them.
   */
  lemma OneKeyTwoCells()
    ensures var cells := Run(Colliding(), 2, 1, Interleaved()).cells;
            && cells[0].inUse && cells[0].key == ROUND_B && cells[0].contribs == [From(ROUND_B, 1)]
            && cells[1].inUse && cells[1].key == ROUND_B && cells[1].contribs == [From(ROUND_B, 0)]
            && cells[0].expected == cells[1].expected == 2
            && cells[0].lastTouched == 4 && cells[1].lastTouched == 2
  {
    var cfg, es := Colliding(), Interleaved();
    var s0, s1, s2, s3 := Run(cfg, 2, 1, []), Run(cfg, 2, 1, es[..1]), Run(cfg, 2, 1, es[..2]), Run(cfg, 2, 1, es[..3]);
    assert es[..1][..0] == [] && es[..2][..1] == es[..1] && es[..3][..2] == es[..2] && es[..4][..3] == es[..3];
    assert es[..4] == es;
    assert At(0, 0, 2) == 0 && At(0, 1, 2) == 1;
    assert Find(SlotView(s0.cells), 0, ROUND_A) == 0;
    OpensAt(s0, 0, From(ROUND_A, 0), 1);
    assert s1 == Process(cfg, s0, From(ROUND_A, 0), 1).1;
    assert SlotView(s1.cells)[0] == Some(ROUND_A) && SlotView(s1.cells)[1] == None;
    assert Find(SlotView(s1.cells), 0, ROUND_B, 1) == 1;
    OpensAt(s1, 1, From(ROUND_B, 0), 2);
    assert s2 == Process(cfg, s1, From(ROUND_B, 0), 2).1;
    SecondPacketOfA(s2, 3);
    assert s3 == Process(cfg, s2, From(ROUND_A, 1), 3).1;
    assert SlotView(s3.cells)[0] == None;
    assert Find(SlotView(s3.cells), 0, ROUND_B) == 0;
    OpensAt(s3, 0, From(ROUND_B, 1), 4);
  }

  /** The run as the loop sees it: one packet a turn, each at its time. */
  function TurnsOf(events: seq<Event>): (ts: seq<Turn>)
    requires forall k :: 0 <= k < |events| ==> events[k].Arrival?
    ensures |ts| == |events|
  {
    seq(|events|, k requires 0 <= k < |events| => Turn(events[k].now, events[k].now, Some(events[k].p), events[k].now))
  }

  /** Before the first sweep is due the loop only receives. */
  lemma {:induction false} BeforeTheFirstSweep(cfg: Config, ttlMs: nat, slots: nat, jobs: nat, start: int, events: seq<Event>)
    requires 0 < slots && 0 < jobs
    requires forall k :: 0 <= k < |events| ==> events[k].Arrival? && events[k].now - start < Interval(ttlMs)
    ensures LoopRun(cfg, ttlMs, Start(slots, jobs, start), TurnsOf(events)) == Loop(Run(cfg, slots, jobs, events), start)
  {
    if events != [] {
      var front := events[..|events| - 1];
      BeforeTheFirstSweep(cfg, ttlMs, slots, jobs, start, front);
      assert TurnsOf(events)[..|front|] == TurnsOf(front);
    }
  }

  /** The first turn at which a sweep is due sweeps. */
  lemma ThenSweeps(cfg: Config, slots: nat, jobs: nat, events: seq<Event>, t: Turn)
    requires 0 < slots && 0 < jobs && t.arrival.None? && t.now >= 1000
    requires forall k :: 0 <= k < |events| ==> events[k].Arrival? && events[k].now < 1000
    ensures LoopRun(cfg, 1, Start(slots, jobs, 0), TurnsOf(events) + [t]).st == Reap(cfg, Run(cfg, slots, jobs, events), t.sweepNow, 1000)
  {
    BeforeTheFirstSweep(cfg, 1, slots, jobs, 0, events);
    assert (TurnsOf(events) + [t])[..|events|] == TurnsOf(events);
  }

  lemma SecondCellExpired(cfg: Config, st: State)
    requires Shaped(st.cells, st.jobs) && |st.cells| == 2 && st.cells[0].inUse && st.cells[1].inUse
    requires st.cells[0].lastTouched == 4 && st.cells[1].lastTouched == 2
    ensures var st' := Reap(cfg, st, 1003, 1000);
            st'.reaped == st.reaped + [st.cells[1]] && st'.cells[0] == st.cells[0]
  {
    SweepExact(cfg, st, 1003, 1000, 0);
    assert ExpiredFrom(st.cells, 1003, 1000, 2) == [];
    assert ExpiredFrom(st.cells, 1003, 1000, 1) == [st.cells[1]];
    assert ExpiredFrom(st.cells, 1003, 1000, 0) == [st.cells[1]];
  }

  lemma {:induction false} ArrivalsReapNothing(cfg: Config, slots: nat, jobs: nat, events: seq<Event>)
    requires 0 < slots && 0 < jobs && forall k :: 0 <= k < |events| ==> events[k].Arrival?
    ensures Run(cfg, slots, jobs, events).reaped == []
  {
    if events != [] {
      var front, e := events[..|events| - 1], events[|events| - 1];
      ArrivalsReapNothing(cfg, slots, jobs, front);
      ProcessReapsNothing(cfg, Run(cfg, slots, jobs, front), e.p, e.now);
    }
  }

  /**
   Where a key is not findable, its packets do not keep all its slots alive: with a TTL
   of 1 ms, the first half of round B is evicted 999 microseconds after a packet of B
   was received.
   */
  lemma HiddenHalfEvicted()
    ensures var ts := TurnsOf(Interleaved());
            var l := LoopRun(Colliding(), 1, Start(2, 1, 0), ts + [Turn(1003, 1003, None, 1003)]);
            && Interleaved()[3] == Arrival(From(ROUND_B, 1), 4) && 1003 - 4 < 1000
            && |l.st.reaped| == 1 && l.st.reaped[0].key == ROUND_B && l.st.reaped[0].contribs == [From(ROUND_B, 0)]
            && l.st.cells[0].inUse && l.st.cells[0].key == ROUND_B && l.st.cells[0].contribs == [From(ROUND_B, 1)]
  {
    var cfg, es, t := Colliding(), Interleaved(), Turn(1003, 1003, None, 1003);
    OneKeyTwoCells();
    ThenSweeps(cfg, 2, 1, es, t);
    SecondCellExpired(cfg, Run(cfg, 2, 1, es));
    ArrivalsReapNothing(cfg, 2, 1, es);
  }
}
