/**
 Multi-tenant accounting of the userspace aggregator: in every reachable state
 the quota counter of a tracked job is the number of cells it occupies.
 */
module QuotaAccounting {
  import opened GradProto
  import opened Probing
  import opened Aggregator

  predicate Holds(c: Cell, job: u32) {
    c.inUse && c.key.job == job
  }

  /** The cells a job occupies right now. */
  ghost function CountJob(cells: seq<Cell>, job: u32): (n: nat)
    ensures n <= |cells|
  {
    if cells == [] then 0
    else CountJob(cells[..|cells| - 1], job) + if Holds(cells[|cells| - 1], job) then 1 else 0
  }

  lemma {:induction false} CountJobUpdate(cells: seq<Cell>, i: nat, c: Cell, job: u32)
    requires i < |cells|
    ensures CountJob(cells[i := c], job) ==
            CountJob(cells, job) + (if Holds(c, job) then 1 else 0) - (if Holds(cells[i], job) then 1 else 0)
  {
    var last := |cells| - 1;
    if i == last {
      assert cells[i := c][..last] == cells[..last];
    } else {
      CountJobUpdate(cells[..last], i, c, job);
      assert cells[i := c][..last] == cells[..last][i := c];
    }
  }

  /** How many of the frees so far were of this job's slots. */
  ghost function CountFreed(freed: seq<u32>, job: u32): nat {
    if freed == [] then 0
    else CountFreed(freed[..|freed| - 1], job) + if freed[|freed| - 1] == job then 1 else 0
  }

  lemma CountFreedSnoc(freed: seq<u32>, f: u32, job: u32)
    ensures CountFreed(freed + [f], job) == CountFreed(freed, job) + if f == job then 1 else 0
  {
    assert (freed + [f])[..|freed|] == freed;
  }

  ghost predicate Tracked(jobs: seq<JobEntry>, job: u32) {
    exists i :: 0 <= i < |jobs| && jobs[i].inUse && jobs[i].job == job
  }

  ghost predicate TableFull(jobs: seq<JobEntry>) {
    forall i :: 0 <= i < |jobs| ==> jobs[i].inUse
  }

  /** The counters of one tracked job that occupies `live` cells after `frees` frees. */
  ghost predicate CountersOk(quota: u32, live: nat, frees: nat, e: JobEntry) {
    && e.concurrent == live
    && (quota > 0 ==> e.concurrent <= quota)
    && Congruent(e.admitted, e.concurrent + frees)
  }

  ghost predicate EntryOk(cfg: Config, cells: seq<Cell>, freed: seq<u32>, e: JobEntry) {
    CountersOk(cfg.quota, CountJob(cells, e.job), CountFreed(freed, e.job), e)
  }

  lemma NoWrap(x: int)
    requires 0 <= x < TWO32
    ensures x % TWO32 == x
  {
  }

  lemma CongruentBump(a: u32, b: int)
    requires Congruent(a, b)
    ensures Congruent((a + 1) % TWO32, b + 1)
  {
    var k: int :| a - b == Turns(k);
    if a + 1 == TWO32 {
      assert 0 - (b + 1) == Turns(k - 1);
    } else {
      NoWrap(a + 1);
      assert (a + 1) - (b + 1) == Turns(k);
    }
  }

  ghost predicate JobsOk(cfg: Config, cells: seq<Cell>, jobs: seq<JobEntry>, freed: seq<u32>) {
    && MapLike(JobView(jobs), cfg.jobHash)
    && (forall i :: 0 <= i < |jobs| && jobs[i].inUse ==> EntryOk(cfg, cells, freed, jobs[i]))
    && (forall j: u32 :: CountJob(cells, j) + CountFreed(freed, j) > 0 ==> Tracked(jobs, j) || TableFull(jobs))
  }

  /** The job table is a finite map that only grows. */
  lemma FindOrCreateJobOnMap(cfg: Config, jobs: seq<JobEntry>, job: u32)
    requires MapLike(JobView(jobs), cfg.jobHash)
    ensures var (at, jobs') := FindOrCreateJob(cfg, jobs, job);
            && (at.None? ==> jobs' == jobs && TableFull(jobs) && !Tracked(jobs, job))
            && (at.Some? ==>
                  && jobs' == jobs[at.value := jobs'[at.value]]
                  && jobs'[at.value].inUse && jobs'[at.value].job == job
                  && (if jobs[at.value].inUse then jobs' == jobs
                      else jobs'[at.value] == JobEntry(true, job, 0, 0, 0) && !Tracked(jobs, job))
                  && MapLike(JobView(jobs'), cfg.jobHash)
                  && forall i :: 0 <= i < |jobs| && i != at.value && jobs[i].inUse ==> jobs[i].job != job)
  {
    var v := JobView(jobs);
    SettlesOnOnlyCell(v, cfg.jobHash, job);
    var (at, jobs') := FindOrCreateJob(cfg, jobs, job);
    assert forall i :: 0 <= i < |jobs| ==> (v[i] == Some(job) <==> jobs[i].inUse && jobs[i].job == job);
    if at.None? {
      assert forall i :: 0 <= i < |jobs| ==> v[i].Some?;
    } else {
      assert JobView(jobs') == v[at.value := Some(job)];
    }
  }

  /** Updating the entry of the one job whose numbers change keeps the whole table right. */
  lemma JobsOkAfter(cfg: Config, cells: seq<Cell>, jobs: seq<JobEntry>, freed: seq<u32>,
                    cells': seq<Cell>, jobs': seq<JobEntry>, freed': seq<u32>, job: u32, at: nat)
    requires JobsOk(cfg, cells, jobs, freed)
    requires at < |jobs| == |jobs'|
    requires forall j: u32 :: j != job ==> CountJob(cells', j) == CountJob(cells, j) && CountFreed(freed', j) == CountFreed(freed, j)
    requires jobs' == jobs[at := jobs'[at]]
    requires jobs'[at].inUse && jobs'[at].job == job && (jobs[at].inUse ==> jobs[at].job == job)
    requires forall i :: 0 <= i < |jobs| && i != at && jobs[i].inUse ==> jobs[i].job != job
    requires MapLike(JobView(jobs'), cfg.jobHash)
    requires EntryOk(cfg, cells', freed', jobs'[at])
    ensures JobsOk(cfg, cells', jobs', freed')
  {
    forall j: u32 | CountJob(cells', j) + CountFreed(freed', j) > 0
      ensures Tracked(jobs', j) || TableFull(jobs')
    {
      if j != job {
        if Tracked(jobs, j) {
          var i :| 0 <= i < |jobs| && jobs[i].inUse && jobs[i].job == j;
          assert jobs'[i].inUse && jobs'[i].job == j;
        }
      }
    }
  }

  /** A job whose table is full and which is not in it has no counter to keep right. */
  lemma JobsOkUntracked(cfg: Config, cells: seq<Cell>, jobs: seq<JobEntry>, freed: seq<u32>,
                        cells': seq<Cell>, freed': seq<u32>, job: u32)
    requires JobsOk(cfg, cells, jobs, freed)
    requires TableFull(jobs) && !Tracked(jobs, job)
    requires forall j: u32 :: j != job ==> CountJob(cells', j) == CountJob(cells, j) && CountFreed(freed', j) == CountFreed(freed, j)
    ensures JobsOk(cfg, cells', jobs, freed')
  {
  }

  /** A job met for the first time while the table has room starts with right counters. */
  lemma NewEntryOk(cfg: Config, cells: seq<Cell>, jobs: seq<JobEntry>, freed: seq<u32>, a: nat, job: u32)
    requires JobsOk(cfg, cells, jobs, freed)
    requires a < |jobs| && if jobs[a].inUse then jobs[a].job == job else !Tracked(jobs, job)
    ensures EntryOk(cfg, cells, freed, if jobs[a].inUse then jobs[a] else JobEntry(true, job, 0, 0, 0))
  {
    if !jobs[a].inUse {
      assert !TableFull(jobs);
      assert CountJob(cells, job) + CountFreed(freed, job) == 0;
      assert 0 - 0 == Turns(0);
    }
  }

  lemma CountersBumped(quota: u32, live: nat, frees: nat, e: JobEntry)
    requires CountersOk(quota, live, frees, e) && live + 1 < TWO32
    requires quota == 0 || e.concurrent < quota
    ensures CountersOk(quota, live + 1, frees, Bumped(e))
  {
    NoWrap(e.concurrent + 1);
    CongruentBump(e.admitted, e.concurrent + frees);
  }

  lemma ClaimCounts(cells: seq<Cell>, i: nat, key: Key)
    requires i < |cells| && !cells[i].inUse
    ensures forall j: u32 :: CountJob(cells[i := Claimed(key)], j) == CountJob(cells, j) + if j == key.job then 1 else 0
  {
    forall j: u32 ensures CountJob(cells[i := Claimed(key)], j) == CountJob(cells, j) + if j == key.job then 1 else 0 {
      CountJobUpdate(cells, i, Claimed(key), j);
    }
  }

  /** Claiming a free cell for a job below its quota, or for a job the full table does not track. */
  lemma AdmittedKeepsJobsOk(cfg: Config, cells: seq<Cell>, jobs: seq<JobEntry>, freed: seq<u32>, i: nat, key: Key)
    requires JobsOk(cfg, cells, jobs, freed)
    requires i < |cells| < TWO32 && !cells[i].inUse
    requires AdmitJob(cfg, jobs, key.job).0
    ensures JobsOk(cfg, cells[i := Claimed(key)], AdmitJob(cfg, jobs, key.job).1, freed)
  {
    var job, cells' := key.job, cells[i := Claimed(key)];
    FindOrCreateJobOnMap(cfg, jobs, job);
    ClaimCounts(cells, i, key);
    var (at, jobs1) := FindOrCreateJob(cfg, jobs, job);
    if at.None? {
      JobsOkUntracked(cfg, cells, jobs, freed, cells', freed, job);
    } else {
      var a := at.value;
      var jobs' := jobs1[a := Bumped(jobs1[a])];
      NewEntryOk(cfg, cells, jobs, freed, a, job);
      CountersBumped(cfg.quota, CountJob(cells, job), CountFreed(freed, job), jobs1[a]);
      assert JobView(jobs') == JobView(jobs1);
      JobsOkAfter(cfg, cells, jobs, freed, cells', jobs', freed, job, a);
    }
  }

  /** A refusal: the job is tracked, occupies exactly its quota of cells, and only its reject counter moves. */
  lemma RefusedKeepsJobsOk(cfg: Config, cells: seq<Cell>, jobs: seq<JobEntry>, freed: seq<u32>, job: u32)
    requires JobsOk(cfg, cells, jobs, freed)
    requires !AdmitJob(cfg, jobs, job).0
    ensures JobsOk(cfg, cells, AdmitJob(cfg, jobs, job).1, freed)
    ensures cfg.quota > 0 && CountJob(cells, job) == cfg.quota && Tracked(jobs, job)
  {
    FindOrCreateJobOnMap(cfg, jobs, job);
    var (at, jobs1) := FindOrCreateJob(cfg, jobs, job);
    var a := at.value;
    assert jobs[a].inUse && Tracked(jobs, job);
    var jobs' := AdmitJob(cfg, jobs, job).1;
    assert EntryOk(cfg, cells, freed, jobs[a].(rejected := jobs'[a].rejected));
    assert JobView(jobs') == JobView(jobs);
    JobsOkAfter(cfg, cells, jobs, freed, cells, jobs', freed, job, a);
  }

  /** Freeing a cell: the counter of a tracked job is positive and goes down by one. */
  lemma ReleaseKeepsJobsOk(cfg: Config, cells: seq<Cell>, jobs: seq<JobEntry>, freed: seq<u32>, i: nat)
    requires JobsOk(cfg, cells, jobs, freed)
    requires i < |cells| < TWO32 && cells[i].inUse
    ensures JobsOk(cfg, cells[i := cells[i].(inUse := false)], ReleaseJob(cfg, jobs, cells[i].key.job), freed + [cells[i].key.job])
    ensures var (at, jobs1) := FindOrCreateJob(cfg, jobs, cells[i].key.job);
            jobs1 == jobs && (at.Some? ==> jobs[at.value].concurrent > 0)
  {
    var job := cells[i].key.job;
    var c' := cells[i].(inUse := false);
    FindOrCreateJobOnMap(cfg, jobs, job);
    var (at, jobs1) := FindOrCreateJob(cfg, jobs, job);
    var jobs' := ReleaseJob(cfg, jobs, job);
    var cells', freed' := cells[i := c'], freed + [job];
    forall j: u32
      ensures CountJob(cells', j) == CountJob(cells, j) - if j == job then 1 else 0
      ensures CountFreed(freed', j) == CountFreed(freed, j) + if j == job then 1 else 0
    {
      CountJobUpdate(cells, i, c', j);
      CountFreedSnoc(freed, job, j);
    }
    assert CountJob(cells, job) > 0;
    if at.None? {
      JobsOkUntracked(cfg, cells, jobs, freed, cells', freed', job);
    } else {
      var a := at.value;
      assert jobs[a].inUse by {
        assert Tracked(jobs, job) || TableFull(jobs);
      }
      assert EntryOk(cfg, cells, freed, jobs[a]);
      assert JobView(jobs') == JobView(jobs1);
      assert EntryOk(cfg, cells', freed', jobs'[a]);
      JobsOkAfter(cfg, cells, jobs, freed, cells', jobs', freed', job, a);
    }
  }
}
