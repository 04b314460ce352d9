/**
 The fairness sweep on the real tables: where the quota makes concurrent,
 never-completing demands settle.
 */
module Fairness {
  import opened GradProto
  import opened Probing
  import opened Aggregator
  import opened QuotaAccounting
  import opened Conservation
  import opened Starvation
  import opened JainsIndex

  ghost function Demand(events: seq<Event>, job: u32): nat {
    if events == [] then 0
    else
      var e := events[|events| - 1];
      Demand(events[..|events| - 1], job) + if e.Arrival? && e.p.key.job == job then 1 else 0
  }

  /** One admissible first packet per key, none of which can complete its slot. */
  ghost predicate NeverCompleting(events: seq<Event>) {
    && (forall k :: 0 <= k < |events| ==> events[k].Arrival? && Admissible(events[k].p) && events[k].p.numWorkers >= 2)
    && (forall k, l :: 0 <= k < l < |events| ==> events[k].p.key != events[l].p.key)
  }

  ghost predicate Unused(events: seq<Event>, key: Key) {
    forall k :: 0 <= k < |events| ==> events[k].Arrival? && events[k].p.key != key
  }

  /** No slot is in use for the key. */
  ghost predicate NotYet(cells: seq<Cell>, key: Key) {
    forall i :: 0 <= i < |cells| && cells[i].inUse ==> cells[i].key != key
  }

  /** Opening a slot for a new key succeeds exactly below the quota. */
  lemma OpenSlot(cfg: Config, st: State, p: Packet, now: int, js: seq<u32>)
    requires Inv(cfg, st) && Within(st.cells, st.jobs, js) && p.key.job in js && |js| <= |st.jobs|
    requires Admissible(p) && p.numWorkers >= 2 && NotYet(st.cells, p.key)
    requires Used(SlotView(st.cells)) < |st.cells|
    ensures var st' := Process(cfg, st, p, now).1;
            var room := cfg.quota == 0 || CountJob(st.cells, p.key.job) < cfg.quota;
            && (forall j: u32 :: CountJob(st'.cells, j) == CountJob(st.cells, j) + if room && j == p.key.job then 1 else 0)
            && Used(SlotView(st'.cells)) <= Used(SlotView(st.cells)) + 1
            && (forall key :: key != p.key && NotYet(st.cells, key) ==> NotYet(st'.cells, key))
  {
    var v, key := SlotView(st.cells), p.key;
    GivesUpIffFullAndAbsent(v, cfg.slotHash(key), key);
    var d := Find(v, cfg.slotHash(key), key);
    var i := At(cfg.slotHash(key), d, |v|);
    assert Stops(v, i, key);
    assert !st.cells[i].inUse;
    AdmittedIffRoom(cfg, st, key.job, js);
    if AdmitJob(cfg, st.jobs, key.job).0 {
      var c := Claimed(key);
      var c' := Accepting(Latch(c, p), p, now);
      var r := FindOrCreateSlot(cfg, st, key);
      assert !Contributed(c.contribs, p.worker);
      assert Process(cfg, st, p, now).1.cells == st.cells[i := c'];
      assert SlotView(st.cells[i := c']) == v[i := Some(key)];
      UsedUpdate(v, i, Some(key));
      forall j: u32 ensures CountJob(st.cells[i := c'], j) == CountJob(st.cells, j) + if j == key.job then 1 else 0 {
        CountJobUpdate(st.cells, i, c', j);
      }
    } else {
      assert Process(cfg, st, p, now).1.cells == st.cells;
    }
  }

  lemma AdmittedIffRoom(cfg: Config, st: State, job: u32, js: seq<u32>)
    requires JobsOk(cfg, st.cells, st.jobs, st.freed) && Within(st.cells, st.jobs, js) && job in js && |js| <= |st.jobs|
    ensures AdmitJob(cfg, st.jobs, job).0 <==> cfg.quota == 0 || CountJob(st.cells, job) < cfg.quota
  {
    FindOrCreateJobOnMap(cfg, st.jobs, job);
    var (at, jobs1) := FindOrCreateJob(cfg, st.jobs, job);
    if at.None? {
      FullTableTracksAll(cfg, st.jobs, js, job);
    } else {
      NewEntryOk(cfg, st.cells, st.jobs, st.freed, at.value, job);
    }
  }

  /** At the quota a new key changes no cell, whether the table is full or not. */
  lemma Refused(cfg: Config, st: State, p: Packet, now: int, js: seq<u32>)
    requires Inv(cfg, st) && Within(st.cells, st.jobs, js) && p.key.job in js && |js| <= |st.jobs|
    requires Admissible(p) && NotYet(st.cells, p.key) && cfg.quota > 0 && CountJob(st.cells, p.key.job) >= cfg.quota
    ensures Process(cfg, st, p, now).1.cells == st.cells
  {
    var v, key := SlotView(st.cells), p.key;
    GivesUpIffFullAndAbsent(v, cfg.slotHash(key), key);
    var d := Find(v, cfg.slotHash(key), key);
    AdmittedIffRoom(cfg, st, key.job, js);
    if d < |v| {
      var i := At(cfg.slotHash(key), d, |v|);
      assert Stops(v, i, key);
      assert !st.cells[i].inUse;
    }
  }

  /** The settled shares of the listed jobs together. */
  ghost function Total(events: seq<Event>, js: seq<u32>, quota: nat): nat {
    if js == [] then 0 else Total(events, js[..|js| - 1], quota) + Share(Demand(events, js[|js| - 1]), quota)
  }

  lemma {:induction false} TotalIsCells(cells: seq<Cell>, events: seq<Event>, js: seq<u32>, quota: nat)
    requires forall j: u32 :: CountJob(cells, j) == Share(Demand(events, j), quota)
    ensures CellsOf(cells, js) == Total(events, js, quota)
  {
    if js != [] {
      TotalIsCells(cells, events, js[..|js| - 1], quota);
    }
  }

  /** One more demand adds at most to the shares, and adds to them while its job is below the quota. */
  lemma {:induction false} TotalGrows(events: seq<Event>, e: Event, js: seq<u32>, quota: nat)
    requires e.Arrival?
    ensures Total(events, js, quota) <= Total(events + [e], js, quota)
    ensures e.p.key.job in js && (quota == 0 || Demand(events, e.p.key.job) < quota) ==>
              Total(events, js, quota) < Total(events + [e], js, quota)
  {
    if js != [] {
      TotalGrows(events, e, js[..|js| - 1], quota);
      assert (events + [e])[..|events|] == events;
    }
  }

  /** Where the demands so far have settled. */
  ghost predicate Settles(cfg: Config, st: State, events: seq<Event>) {
    && (forall j: u32 :: CountJob(st.cells, j) == Share(Demand(events, j), cfg.quota))
    && (forall key :: Unused(events, key) ==> NotYet(st.cells, key))
  }

  lemma OneMoreSettles(cfg: Config, st: State, before: seq<Event>, e: Event, js: seq<u32>)
    requires Inv(cfg, st) && Within(st.cells, st.jobs, js) && |js| <= |st.jobs| && Settles(cfg, st, before)
    requires e.Arrival? && Admissible(e.p) && e.p.numWorkers >= 2 && e.p.key.job in js && Unused(before, e.p.key)
    requires Total(before + [e], js, cfg.quota) <= |st.cells|
    ensures Settles(cfg, Process(cfg, st, e.p, e.now).1, before + [e])
  {
    assert (before + [e])[..|before|] == before && NotYet(st.cells, e.p.key);
    forall key | Unused(before + [e], key) ensures Unused(before, key) && e.p.key != key {
      UnusedFront(before, e, key);
    }
    if cfg.quota == 0 || CountJob(st.cells, e.p.key.job) < cfg.quota {
      FreeCellLeft(cfg, st, before, e, js);
      OpenSlot(cfg, st, e.p, e.now, js);
    } else {
      Refused(cfg, st, e.p, e.now, js);
    }
  }

  /** While the settled shares fit the table, a job below its quota finds a free cell. */
  lemma FreeCellLeft(cfg: Config, st: State, before: seq<Event>, e: Event, js: seq<u32>)
    requires Within(st.cells, st.jobs, js) && Settles(cfg, st, before)
    requires e.Arrival? && e.p.key.job in js && (cfg.quota == 0 || CountJob(st.cells, e.p.key.job) < cfg.quota)
    requires Total(before + [e], js, cfg.quota) <= |st.cells|
    ensures Used(SlotView(st.cells)) < |st.cells|
  {
    TotalIsCells(st.cells, before, js, cfg.quota);
    UsedAtMostCellsOf(st.cells, js);
    TotalGrows(before, e, js, cfg.quota);
  }

  lemma UnusedFront(before: seq<Event>, e: Event, key: Key)
    requires Unused(before + [e], key)
    ensures Unused(before, key) && e.Arrival? && e.p.key != key
  {
    assert (before + [e])[|before|] == e;
    assert forall k :: 0 <= k < |before| ==> (before + [e])[k] == before[k];
  }

  /**
   Every interleaving of never-completing demands with distinct keys, however large,
   whose settled shares fit the slot table, leaves each job with exactly
   min(demand, quota) slots, or its whole demand when the quota is 0.
   */
  lemma {:induction false} DemandSettles(cfg: Config, slots: nat, jobs: nat, events: seq<Event>, js: seq<u32>)
    requires 0 < slots < TWO32 && 0 < jobs
    requires NeverCompleting(events) && Total(events, js, cfg.quota) <= slots && |js| <= jobs
    requires forall k :: 0 <= k < |events| ==> EventWithin(events[k], js)
    ensures Settles(cfg, Run(cfg, slots, jobs, events), events)
  {
    var st := Run(cfg, slots, jobs, events);
    if events == [] {
      NothingInUse(st.cells);
    } else {
      var before, e := events[..|events| - 1], events[|events| - 1];
      assert before + [e] == events && EventWithin(e, js);
      TotalGrows(before, e, js, cfg.quota);
      DemandSettles(cfg, slots, jobs, before, js);
      RunKeepsInv(cfg, slots, jobs, before);
      RunStaysWithin(cfg, slots, jobs, before, js);
      OneMoreSettles(cfg, Run(cfg, slots, jobs, before), before, e, js);
    }
  }

  lemma {:induction false} SharesWithinQuota(events: seq<Event>, js: seq<u32>, quota: nat)
    requires quota >= 1
    ensures Total(events, js, quota) <= |js| * quota
  {
    if js != [] {
      SharesWithinQuota(events, js[..|js| - 1], quota);
      assert |js| * quota == (|js| - 1) * quota + quota;
    }
  }

  /** A quota that fits the table for every job tames any demand, a greedy job's included. */
  lemma GreedyDemandSettles(cfg: Config, slots: nat, jobs: nat, events: seq<Event>, js: seq<u32>)
    requires 0 < slots < TWO32 && 0 < jobs && cfg.quota >= 1 && |js| * cfg.quota <= slots && |js| <= jobs
    requires NeverCompleting(events) && forall k :: 0 <= k < |events| ==> EventWithin(events[k], js)
    ensures Settles(cfg, Run(cfg, slots, jobs, events), events)
  {
    SharesWithinQuota(events, js, cfg.quota);
    DemandSettles(cfg, slots, jobs, events, js);
  }

  /** The counter the stats dump prints: a tracked job's concurrent_slots is its settled share. */
  lemma CountersSettle(cfg: Config, slots: nat, jobs: nat, events: seq<Event>, js: seq<u32>, a: nat)
    requires 0 < slots < TWO32 && 0 < jobs
    requires NeverCompleting(events) && Total(events, js, cfg.quota) <= slots && |js| <= jobs
    requires forall k :: 0 <= k < |events| ==> EventWithin(events[k], js)
    requires a < jobs && Run(cfg, slots, jobs, events).jobs[a].inUse
    ensures var e := Run(cfg, slots, jobs, events).jobs[a];
            e.concurrent == Share(Demand(events, e.job), cfg.quota)
  {
    var st := Run(cfg, slots, jobs, events);
    DemandSettles(cfg, slots, jobs, events, js);
    RunKeepsInv(cfg, slots, jobs, events);
    assert EntryOk(cfg, st.cells, st.freed, st.jobs[a]);
  }
}
