/**
 Starvation freedom of the admission quota: when the jobs that ever appear fit
 the job table and their quotas together fit the slot table, a job below its own
 quota is never refused, whatever the other jobs do.
 */
module Starvation {
  import opened GradProto
  import opened Probing
  import opened Aggregator
  import opened QuotaAccounting
  import opened Conservation

  /** Every cell in use and every tracked job belongs to one of the listed jobs. */
  ghost predicate Within(cells: seq<Cell>, jobs: seq<JobEntry>, js: seq<u32>) {
    && (forall i :: 0 <= i < |cells| && cells[i].inUse ==> cells[i].key.job in js)
    && (forall i :: 0 <= i < |jobs| && jobs[i].inUse ==> jobs[i].job in js)
  }

  ghost predicate EventWithin(e: Event, js: seq<u32>) {
    e.Arrival? ==> e.p.key.job in js
  }

  lemma SlotStaysWithin(cfg: Config, st: State, key: Key, js: seq<u32>)
    requires Shaped(st.cells, st.jobs) && Within(st.cells, st.jobs, js) && key.job in js
    ensures var st' := FindOrCreateSlot(cfg, st, key).1; Within(st'.cells, st'.jobs, js)
  {
  }

  lemma ContributeStaysWithin(cfg: Config, st: State, i: nat, p: Packet, now: int, js: seq<u32>)
    requires Shaped(st.cells, st.jobs) && Within(st.cells, st.jobs, js)
    requires i < |st.cells| && st.cells[i].inUse && Bounded(p)
    ensures var st' := Contribute(cfg, st, i, p, now).1; Within(st'.cells, st'.jobs, js)
  {
  }

  lemma ProcessStaysWithin(cfg: Config, st: State, p: Packet, now: int, js: seq<u32>)
    requires Shaped(st.cells, st.jobs) && Within(st.cells, st.jobs, js) && p.key.job in js
    ensures var st' := Process(cfg, st, p, now).1; Within(st'.cells, st'.jobs, js)
  {
    if Admissible(p) {
      var r := FindOrCreateSlot(cfg, st, p.key);
      SlotHandedOut(cfg, st, p.key);
      SlotStaysWithin(cfg, st, p.key, js);
      if r.0.Some? {
        ContributeStaysWithin(cfg, r.1, r.0.value, p, now, js);
      }
    }
  }

  lemma {:induction false} ReapStaysWithin(cfg: Config, st: State, now: int, ttl: int, i: nat, js: seq<u32>)
    requires Shaped(st.cells, st.jobs) && Within(st.cells, st.jobs, js) && i <= |st.cells|
    ensures var st' := Reap(cfg, st, now, ttl, i); Within(st'.cells, st'.jobs, js)
    decreases |st.cells| - i
  {
    if i < |st.cells| {
      if Expired(st.cells[i], now, ttl) {
        ReapStaysWithin(cfg, FreeSlot(cfg, st.(reaped := st.reaped + [st.cells[i]]), i), now, ttl, i + 1, js);
      } else {
        ReapStaysWithin(cfg, st, now, ttl, i + 1, js);
      }
    }
  }

  lemma {:induction false} RunStaysWithin(cfg: Config, slots: nat, jobs: nat, events: seq<Event>, js: seq<u32>)
    requires 0 < slots && 0 < jobs
    requires forall k :: 0 <= k < |events| ==> EventWithin(events[k], js)
    ensures var st := Run(cfg, slots, jobs, events); Within(st.cells, st.jobs, js)
  {
    if events != [] {
      var before, e := events[..|events| - 1], events[|events| - 1];
      RunStaysWithin(cfg, slots, jobs, before, js);
      var st := Run(cfg, slots, jobs, before);
      match e
      case Arrival(p, now) =>
        assert EventWithin(e, js);
        ProcessStaysWithin(cfg, st, p, now, js);
      case Sweep(now, ttl) => ReapStaysWithin(cfg, st, now, ttl, 0, js);
    }
  }

  // ----------------------------------------------------------------- pigeonholes

  /** All listed jobs' cells together; a job listed twice is counted twice. */
  ghost function CellsOf(cells: seq<Cell>, js: seq<u32>): nat {
    if js == [] then 0 else CellsOf(cells, js[..|js| - 1]) + CountJob(cells, js[|js| - 1])
  }

  lemma {:induction false} CellsOfAtMost(cells: seq<Cell>, js: seq<u32>, quota: nat)
    requires forall k :: 0 <= k < |js| ==> CountJob(cells, js[k]) <= quota
    ensures CellsOf(cells, js) <= |js| * quota
    ensures (exists k :: 0 <= k < |js| && CountJob(cells, js[k]) < quota) ==> CellsOf(cells, js) < |js| * quota
  {
    if js != [] {
      CellsOfAtMost(cells, js[..|js| - 1], quota);
      assert |js| * quota == (|js| - 1) * quota + quota;
    }
  }

  lemma {:induction false} CellsOfSnoc(cells: seq<Cell>, c: Cell, js: seq<u32>)
    ensures CellsOf(cells + [c], js) >= CellsOf(cells, js)
    ensures c.inUse && c.key.job in js ==> CellsOf(cells + [c], js) >= CellsOf(cells, js) + 1
  {
    if js != [] {
      var j := js[|js| - 1];
      CellsOfSnoc(cells, c, js[..|js| - 1]);
      assert (cells + [c])[..|cells|] == cells;
      assert CountJob(cells + [c], j) == CountJob(cells, j) + if Holds(c, j) then 1 else 0;
    }
  }

  lemma {:induction false} UsedAtMostCellsOf(cells: seq<Cell>, js: seq<u32>)
    requires forall i :: 0 <= i < |cells| && cells[i].inUse ==> cells[i].key.job in js
    ensures Used(SlotView(cells)) <= CellsOf(cells, js)
  {
    if cells != [] {
      var front, c := cells[..|cells| - 1], cells[|cells| - 1];
      UsedAtMostCellsOf(front, js);
      CellsOfSnoc(front, c, js);
      assert front + [c] == cells;
      assert SlotView(cells)[..|cells| - 1] == SlotView(front);
    }
  }

  ghost function Ids(js: seq<u32>): (r: set<u32>)
    ensures forall j :: j in r <==> j in js
    ensures |r| <= |js|
  {
    if js == [] then {} else Ids(js[..|js| - 1]) + {js[|js| - 1]}
  }

  /** A full job table with room for every listed job tracks every listed job. */
  lemma FullTableTracksAll(cfg: Config, jobs: seq<JobEntry>, js: seq<u32>, j: u32)
    requires MapLike(JobView(jobs), cfg.jobHash) && TableFull(jobs)
    requires |js| <= |jobs| && j in js
    requires forall i :: 0 <= i < |jobs| && jobs[i].inUse ==> jobs[i].job in js
    ensures Tracked(jobs, j)
  {
    var v := JobView(jobs);
    FullIffKeyCount(v, cfg.jobHash);
    assert forall i :: 0 <= i < |v| ==> v[i].Some?;
    assert Keys(v) <= Ids(js);
    assert Ids(js) == Keys(v) + (Ids(js) - Keys(v));
    assert j in Keys(v);
    var i :| 0 <= i < |v| && v[i].Some? && v[i].value == j;
    assert jobs[i].inUse && jobs[i].job == j;
  }

  lemma JobAtMostQuota(cfg: Config, st: State, js: seq<u32>, j: u32)
    requires JobsOk(cfg, st.cells, st.jobs, st.freed) && Within(st.cells, st.jobs, js)
    requires cfg.quota > 0 && |js| <= |st.jobs| && j in js
    ensures CountJob(st.cells, j) <= cfg.quota
  {
    if CountJob(st.cells, j) > 0 {
      if TableFull(st.jobs) {
        FullTableTracksAll(cfg, st.jobs, js, j);
      }
      assert CountJob(st.cells, j) + CountFreed(st.freed, j) > 0;
      assert Tracked(st.jobs, j);
      var i :| 0 <= i < |st.jobs| && st.jobs[i].inUse && st.jobs[i].job == j;
      assert EntryOk(cfg, st.cells, st.freed, st.jobs[i]);
    }
  }

  lemma RoomLeft(cfg: Config, st: State, js: seq<u32>, j: u32)
    requires JobsOk(cfg, st.cells, st.jobs, st.freed) && Within(st.cells, st.jobs, js)
    requires 0 < cfg.quota && |js| <= |st.jobs| && |js| * cfg.quota <= |st.cells|
    requires j in js && CountJob(st.cells, j) < cfg.quota
    ensures Used(SlotView(st.cells)) < |st.cells|
  {
    forall k | 0 <= k < |js| ensures CountJob(st.cells, js[k]) <= cfg.quota {
      JobAtMostQuota(cfg, st, js, js[k]);
    }
    CellsOfAtMost(st.cells, js, cfg.quota);
    UsedAtMostCellsOf(st.cells, js);
  }

  /** With room left and the job below its quota, a slot is always handed out. */
  lemma NotRefused(cfg: Config, st: State, key: Key)
    requires Shaped(st.cells, st.jobs) && JobsOk(cfg, st.cells, st.jobs, st.freed)
    requires Used(SlotView(st.cells)) < |st.cells|
    requires CountJob(st.cells, key.job) < cfg.quota
    ensures FindOrCreateSlot(cfg, st, key).0.Some?
  {
    var v := SlotView(st.cells);
    GivesUpIffFullAndAbsent(v, cfg.slotHash(key), key);
    if !AdmitJob(cfg, st.jobs, key.job).0 {
      RefusedKeepsJobsOk(cfg, st.cells, st.jobs, st.freed, key.job);
    }
  }

  /**
   In every reachable state: if at most as many distinct jobs as the job table
   holds ever appear, and their quotas together fit the slot table, then a job
   that occupies fewer cells than its quota is handed a slot for any key.
   */
  lemma StarvationFree(cfg: Config, slots: nat, jobs: nat, events: seq<Event>, js: seq<u32>, key: Key)
    requires 0 < slots < TWO32 && 0 < jobs
    requires forall k :: 0 <= k < |events| ==> EventWithin(events[k], js)
    requires |js| <= jobs && 0 < cfg.quota && |js| * cfg.quota <= slots
    requires key.job in js
    requires CountJob(Run(cfg, slots, jobs, events).cells, key.job) < cfg.quota
    ensures FindOrCreateSlot(cfg, Run(cfg, slots, jobs, events), key).0.Some?
  {
    var st := Run(cfg, slots, jobs, events);
    RunKeepsInv(cfg, slots, jobs, events);
    RunStaysWithin(cfg, slots, jobs, events, js);
    RoomLeft(cfg, st, js, key.job);
    NotRefused(cfg, st, key);
  }

  lemma TimesQuota(a: nat, b: nat, quota: nat)
    requires a <= b
    ensures a * quota <= b * quota
  {
  }

  const SLOT_TABLE_CAPACITY: nat := 65536
  const JOB_TABLE_CAPACITY: nat := 256

  /** The shipped capacities: 256 jobs at a quota of at most 256 slots each. */
  lemma StarvationFreeAsShipped(cfg: Config, events: seq<Event>, js: seq<u32>, key: Key)
    requires forall k :: 0 <= k < |events| ==> EventWithin(events[k], js)
    requires |js| <= JOB_TABLE_CAPACITY && 0 < cfg.quota && JOB_TABLE_CAPACITY * cfg.quota <= SLOT_TABLE_CAPACITY
    requires key.job in js
    requires CountJob(Run(cfg, SLOT_TABLE_CAPACITY, JOB_TABLE_CAPACITY, events).cells, key.job) < cfg.quota
    ensures FindOrCreateSlot(cfg, Run(cfg, SLOT_TABLE_CAPACITY, JOB_TABLE_CAPACITY, events), key).0.Some?
  {
    TimesQuota(|js|, JOB_TABLE_CAPACITY, cfg.quota);
    StarvationFree(cfg, SLOT_TABLE_CAPACITY, JOB_TABLE_CAPACITY, events, js, key);
  }
}
