/**
 The cumulative counters of the stats dump: in every reachable state a tracked job's
 `rejected_count` is the number of its packets that found room in the slot table but
 were turned away by the quota.
 */
module JobStats {
  import opened GradProto
  import opened Probing
  import opened Aggregator
  import opened QuotaAccounting
  import opened Conservation

  ghost predicate RoomLeft(cells: seq<Cell>) {
    exists i :: 0 <= i < |cells| && !cells[i].inUse
  }

  /** The event is a packet of this job that got no slot although one was free. */
  ghost predicate TurnedAway(cfg: Config, st: State, e: Event, job: u32)
    requires Shaped(st.cells, st.jobs)
  {
    e.Arrival? && e.p.key.job == job && Process(cfg, st, e.p, e.now).0 == NotAdmitted && RoomLeft(st.cells)
  }

  /** How many packets of the job were. */
  ghost function Rejections(cfg: Config, slots: nat, jobs: nat, events: seq<Event>, job: u32): nat
    requires 0 < slots && 0 < jobs
  {
    if events == [] then 0
    else
      var before := events[..|events| - 1];
      Rejections(cfg, slots, jobs, before, job)
      + if TurnedAway(cfg, Run(cfg, slots, jobs, before), events[|events| - 1], job) then 1 else 0
  }

  /** Entries stay, new ones start at 0, and only the refused job's count moves, by `more`. */
  ghost predicate RejectsGrow(jobs: seq<JobEntry>, jobs': seq<JobEntry>, job: u32, more: nat) {
    && |jobs'| == |jobs|
    && (forall a :: 0 <= a < |jobs| && jobs[a].inUse ==>
          && jobs'[a].inUse && jobs'[a].job == jobs[a].job
          && jobs'[a].rejected == if jobs[a].job == job then (jobs[a].rejected + more) % TWO32 else jobs[a].rejected)
    && (forall a :: 0 <= a < |jobs| && !jobs[a].inUse && jobs'[a].inUse ==> jobs'[a].rejected == 0 && !Tracked(jobs, jobs'[a].job))
    && (more > 0 ==> Tracked(jobs, job))
  }

  lemma AdmitRejects(cfg: Config, jobs: seq<JobEntry>, job: u32)
    requires MapLike(JobView(jobs), cfg.jobHash)
    ensures var (ok, jobs') := AdmitJob(cfg, jobs, job); RejectsGrow(jobs, jobs', job, if ok then 0 else 1)
  {
    FindOrCreateJobOnMap(cfg, jobs, job);
    forall a | 0 <= a < |jobs| ensures (jobs[a].rejected + 0) % TWO32 == jobs[a].rejected {
      NoWrap(jobs[a].rejected);
    }
  }

  lemma ReleaseRejects(cfg: Config, st: State, i: nat, job: u32)
    requires JobsOk(cfg, st.cells, st.jobs, st.freed) && Shaped(st.cells, st.jobs)
    requires i < |st.cells| < TWO32 && st.cells[i].inUse
    ensures RejectsGrow(st.jobs, FreeSlot(cfg, st, i).jobs, job, 0)
  {
    ReleaseKeepsJobsOk(cfg, st.cells, st.jobs, st.freed, i);
    forall a | 0 <= a < |st.jobs| ensures (st.jobs[a].rejected + 0) % TWO32 == st.jobs[a].rejected {
      NoWrap(st.jobs[a].rejected);
    }
  }

  lemma UnchangedRejects(jobs: seq<JobEntry>, job: u32)
    ensures RejectsGrow(jobs, jobs, job, 0)
  {
    forall a | 0 <= a < |jobs| ensures (jobs[a].rejected + 0) % TWO32 == jobs[a].rejected {
      NoWrap(jobs[a].rejected);
    }
  }

  lemma RejectsGrowThen(a: seq<JobEntry>, b: seq<JobEntry>, c: seq<JobEntry>, job: u32, more: nat)
    requires RejectsGrow(a, b, job, more) && RejectsGrow(b, c, job, 0)
    ensures RejectsGrow(a, c, job, more)
  {
    forall k | 0 <= k < |a| && a[k].inUse ensures (b[k].rejected + 0) % TWO32 == b[k].rejected {
      NoWrap(b[k].rejected);
    }
    forall k | 0 <= k < |a| && !a[k].inUse && c[k].inUse ensures c[k].rejected == 0 && !Tracked(a, c[k].job) {
      if b[k].inUse {
        NoWrap(b[k].rejected);
      }
    }
  }

  /** Turned away means: no live slot was met before a free cell, and the quota said no. */
  lemma FindSlotRejects(cfg: Config, st: State, key: Key)
    requires Inv(cfg, st)
    ensures var r := FindOrCreateSlot(cfg, st, key);
            RejectsGrow(st.jobs, r.1.jobs, key.job, if r.0.None? && RoomLeft(st.cells) then 1 else 0)
  {
    var v := SlotView(st.cells);
    var d := Find(v, cfg.slotHash(key), key);
    GivesUpIffFullAndAbsent(v, cfg.slotHash(key), key);
    UnchangedRejects(st.jobs, key.job);
    if d == |v| {
      forall i | 0 <= i < |st.cells| ensures st.cells[i].inUse {
        assert v[i].Some?;
      }
    } else {
      var i := At(cfg.slotHash(key), d, |v|);
      if !st.cells[i].inUse {
        AdmitRejects(cfg, st.jobs, key.job);
      }
    }
  }

  lemma ContributeRejects(cfg: Config, st: State, i: nat, p: Packet, now: int)
    requires Inv(cfg, st) && Admissible(p) && i < |st.cells| && st.cells[i].inUse && st.cells[i].key == p.key
    ensures RejectsGrow(st.jobs, Contribute(cfg, st, i, p, now).1.jobs, p.key.job, 0)
    ensures Contribute(cfg, st, i, p, now).0 != NotAdmitted
  {
    UnchangedRejects(st.jobs, p.key.job);
    ReleaseRejects(cfg, st, i, p.key.job);
  }

  lemma ProcessRejects(cfg: Config, st: State, e: Event)
    requires Inv(cfg, st) && e.Arrival?
    ensures RejectsGrow(st.jobs, Process(cfg, st, e.p, e.now).1.jobs, e.p.key.job, if TurnedAway(cfg, st, e, e.p.key.job) then 1 else 0)
  {
    UnchangedRejects(st.jobs, e.p.key.job);
    if Admissible(e.p) {
      var r := FindOrCreateSlot(cfg, st, e.p.key);
      FindSlotRejects(cfg, st, e.p.key);
      FindOrCreateSlotKeepsInv(cfg, st, e.p.key);
      SlotHandedOut(cfg, st, e.p.key);
      if r.0.Some? {
        ContributeRejects(cfg, r.1, r.0.value, e.p, e.now);
        RejectsGrowThen(st.jobs, r.1.jobs, Process(cfg, st, e.p, e.now).1.jobs, e.p.key.job, 0);
      }
    }
  }

  lemma {:induction false} ReapRejects(cfg: Config, st: State, now: int, ttl: int, i: nat, job: u32)
    requires Inv(cfg, st) && i <= |st.cells|
    ensures RejectsGrow(st.jobs, Reap(cfg, st, now, ttl, i).jobs, job, 0)
    decreases |st.cells| - i
  {
    UnchangedRejects(st.jobs, job);
    if i < |st.cells| {
      if Expired(st.cells[i], now, ttl) {
        var st1 := FreeSlot(cfg, st.(reaped := st.reaped + [st.cells[i]]), i);
        ReapOneKeepsInv(cfg, st, i);
        ReleaseRejects(cfg, st, i, job);
        ReapRejects(cfg, st1, now, ttl, i + 1, job);
        RejectsGrowThen(st.jobs, st1.jobs, Reap(cfg, st, now, ttl, i).jobs, job, 0);
      } else {
        ReapRejects(cfg, st, now, ttl, i + 1, job);
      }
    }
  }

  /** The count is right, for every tracked job, and nothing was counted for any other. */
  ghost predicate RejectsOk(st: State, count: u32 -> nat) {
    && (forall a :: 0 <= a < |st.jobs| && st.jobs[a].inUse ==> st.jobs[a].rejected == count(st.jobs[a].job) % TWO32)
    && (forall j: u32 :: count(j) > 0 ==> Tracked(st.jobs, j))
  }

  lemma AddMod(n: nat, m: nat)
    ensures (n % TWO32 + m) % TWO32 == (n + m) % TWO32
  {
  }

  lemma GrowKeepsRejectsOk(st: State, st': State, job: u32, more: nat, count: u32 -> nat, count': u32 -> nat)
    requires RejectsOk(st, count) && RejectsGrow(st.jobs, st'.jobs, job, more)
    requires forall j: u32 :: count'(j) == count(j) + if j == job then more else 0
    ensures RejectsOk(st', count')
  {
    AddMod(count(job), more);
    forall a | 0 <= a < |st'.jobs| && st'.jobs[a].inUse ensures st'.jobs[a].rejected == count'(st'.jobs[a].job) % TWO32 {
      if st.jobs[a].inUse {
        assert st'.jobs[a].job == st.jobs[a].job;
      }
    }
    forall j: u32 | count'(j) > 0 ensures Tracked(st'.jobs, j) {
      assert Tracked(st.jobs, j);
      var a :| 0 <= a < |st.jobs| && st.jobs[a].inUse && st.jobs[a].job == j;
      assert st'.jobs[a].inUse && st'.jobs[a].job == j;
    }
  }

  /** rejected_count is exact, modulo 2^32, under any stream of packets and sweeps. */
  lemma {:induction false} RejectionsCounted(cfg: Config, slots: nat, jobs: nat, events: seq<Event>)
    requires 0 < slots < TWO32 && 0 < jobs
    ensures RejectsOk(Run(cfg, slots, jobs, events), j => Rejections(cfg, slots, jobs, events, j))
  {
    if events != [] {
      var before, e := events[..|events| - 1], events[|events| - 1];
      var st, st' := Run(cfg, slots, jobs, before), Run(cfg, slots, jobs, events);
      RejectionsCounted(cfg, slots, jobs, before);
      RunKeepsInv(cfg, slots, jobs, before);
      var count, count' := j => Rejections(cfg, slots, jobs, before, j), j => Rejections(cfg, slots, jobs, events, j);
      match e
      case Arrival(p, now) =>
        ProcessRejects(cfg, st, e);
        GrowKeepsRejectsOk(st, st', p.key.job, if TurnedAway(cfg, st, e, p.key.job) then 1 else 0, count, count');
      case Sweep(now, ttl) =>
        ReapRejects(cfg, st, now, ttl, 0, 0);
        GrowKeepsRejectsOk(st, st', 0, 0, count, count');
    }
  }
}
