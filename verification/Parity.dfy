/**
 Stateful parity of the two aggregators: fed the same packets one at a time,
 the kernel program's maps and the userspace tables stay in a simulation and
 emit the same packets, as long as the userspace slot table stays map-like.
 */
module Parity {
  import opened GradProto
  import opened Probing
  import opened SeenBitmap
  import opened QuotaAccounting
  import opened Conservation
  import opened Tombstones
  import A = Aggregator
  import X = XdpProgram

  /** One slot, kept as a bitmap on one side and as bytes on the other. */
  ghost predicate SameSlot(s: X.Slot, c: A.Cell) {
    && |c.seen| == MAX_WORKERS
    && s.sum == c.sum && s.chunkLen == c.chunkLen && s.expected == c.expected && s.received == c.received
    && forall w :: 0 <= w < MAX_WORKERS ==> (Test(s.seen, w) <==> c.seen[w])
  }

  ghost predicate SameSlots(slots: map<Key, X.Slot>, cells: seq<A.Cell>) {
    && slots.Keys == Keys(A.SlotView(cells))
    && forall i :: 0 <= i < |cells| && cells[i].inUse ==>
         cells[i].key in slots && SameSlot(slots[cells[i].key], cells[i])
  }

  ghost predicate SameJobs(jobs: map<u32, u32>, entries: seq<A.JobEntry>) {
    && jobs.Keys == Keys(A.JobView(entries))
    && forall a :: 0 <= a < |entries| && entries[a].inUse ==>
         entries[a].job in jobs && jobs[entries[a].job] == entries[a].concurrent
  }

  /** Equal quotas and capacities, config populated. */
  ghost predicate SameConfig(x: X.Config, a: A.Config, st: A.State) {
    x.quota == a.quota && x.populated && x.maxSlots == |st.cells| && x.maxJobs == |st.jobs|
  }

  ghost predicate Simulates(x: X.Config, m: X.Maps, a: A.Config, st: A.State) {
    && SameConfig(x, a, st)
    && Inv(a, st) && Started(st)
    && MapLike(A.SlotView(st.cells), a.slotHash)
    && SameSlots(m.slots, st.cells)
    && SameJobs(m.jobs, st.jobs)
  }

  /** XDP_TX on one side exactly when a packet is sent on the other, with equal key and values. */
  ghost predicate SameVerdict(v: X.Verdict, o: A.Outcome) {
    if o.Sent? then v == X.Tx(o.emission.key, o.emission.values) else v == X.Drop
  }

  // ------------------------------------------------------------- the job table

  lemma TrackedIsKey(entries: seq<A.JobEntry>, job: u32)
    ensures job in Keys(A.JobView(entries)) <==> Tracked(entries, job)
  {
    var v := A.JobView(entries);
    if Tracked(entries, job) {
      var a :| 0 <= a < |entries| && entries[a].inUse && entries[a].job == job;
      assert v[a].Some? && v[a].value == job;
    }
  }

  /** Updating one job's entry on both sides. */
  lemma SameJobsUpdate(cfg: A.Config, jobs: map<u32, u32>, entries: seq<A.JobEntry>, a: nat, e: A.JobEntry)
    requires SameJobs(jobs, entries) && a < |entries| && e.inUse
    requires !entries[a].inUse || entries[a].job == e.job
    requires forall b :: 0 <= b < |entries| && b != a && entries[b].inUse ==> entries[b].job != e.job
    ensures SameJobs(jobs[e.job := e.concurrent], entries[a := e])
  {
    var v, v' := A.JobView(entries), A.JobView(entries[a := e]);
    assert v' == v[a := Some(e.job)];
    KeysInsert(v, a, e.job);
  }

  lemma JobCounts(cfg: A.Config, jobs: map<u32, u32>, entries: seq<A.JobEntry>)
    requires SameJobs(jobs, entries) && MapLike(A.JobView(entries), cfg.jobHash)
    ensures |jobs| <= |entries| && (|jobs| == |entries| <==> TableFull(entries))
  {
    var v := A.JobView(entries);
    FullIffKeyCount(v, cfg.jobHash);
    assert |jobs| == |jobs.Keys|;
    assert forall a :: 0 <= a < |v| ==> (v[a].Some? <==> entries[a].inUse);
  }

  /** What the userspace job table holds for a job, seen from the map. */
  lemma JobLookupAgrees(a: A.Config, jobs: map<u32, u32>, entries: seq<A.JobEntry>, job: u32)
    requires SameJobs(jobs, entries) && MapLike(A.JobView(entries), a.jobHash)
    ensures var r := A.FindOrCreateJob(a, entries, job);
            && (r.0.None? <==> job !in jobs && |jobs| == |entries|)
            && (r.0.None? ==> r.1 == entries)
            && (r.0.Some? ==>
                  && r.1 == entries[r.0.value := r.1[r.0.value]]
                  && r.1[r.0.value].inUse && r.1[r.0.value].job == job
                  && r.1[r.0.value].concurrent == (if job in jobs then jobs[job] else 0)
                  && (!entries[r.0.value].inUse || entries[r.0.value].job == job)
                  && (job in jobs || |jobs| < |entries|)
                  && forall b :: 0 <= b < |entries| && b != r.0.value && entries[b].inUse ==> entries[b].job != job)
  {
    FindOrCreateJobOnMap(a, entries, job);
    TrackedIsKey(entries, job);
    JobCounts(a, jobs, entries);
    var r := A.FindOrCreateJob(a, entries, job);
    if r.0.Some? {
      if entries[r.0.value].inUse {
        assert Tracked(entries, job);
      } else {
        assert !TableFull(entries);
      }
    }
  }

  lemma RefusalAgrees(x: X.Config, a: A.Config, jobs: map<u32, u32>, entries: seq<A.JobEntry>, job: u32)
    requires SameJobs(jobs, entries) && MapLike(A.JobView(entries), a.jobHash)
    requires x.quota == a.quota && x.populated && !A.AdmitJob(a, entries, job).0
    ensures X.AtQuota(x, jobs, job) && SameJobs(jobs, A.AdmitJob(a, entries, job).1)
  {
    JobLookupAgrees(a, jobs, entries, job);
    var (at, entries1) := A.FindOrCreateJob(a, entries, job);
    var e := entries1[at.value];
    var e' := e.(rejected := (e.rejected + 1) % TWO32);
    SameJobsUpdate(a, jobs, entries, at.value, e');
    assert entries1[at.value := e'] == entries[at.value := e'];
    assert jobs[job := e.concurrent] == jobs;
  }

  lemma AdmissionAgrees(x: X.Config, a: A.Config, jobs: map<u32, u32>, entries: seq<A.JobEntry>, job: u32)
    requires SameJobs(jobs, entries) && MapLike(A.JobView(entries), a.jobHash)
    requires x.quota == a.quota && x.populated && x.maxJobs == |entries| && A.AdmitJob(a, entries, job).0
    ensures !X.AtQuota(x, jobs, job) && SameJobs(X.Increment(x, jobs, job), A.AdmitJob(a, entries, job).1)
  {
    JobLookupAgrees(a, jobs, entries, job);
    var (at, entries1) := A.FindOrCreateJob(a, entries, job);
    if at.Some? {
      var e := entries1[at.value];
      BumpAgrees(x, a, jobs, entries, job, at.value, e);
      assert entries1[at.value := A.Bumped(e)] == entries[at.value := A.Bumped(e)];
    }
  }

  /** Counting one more on both sides. */
  lemma BumpAgrees(x: X.Config, a: A.Config, jobs: map<u32, u32>, entries: seq<A.JobEntry>, job: u32, at: nat, e: A.JobEntry)
    requires SameJobs(jobs, entries) && x.maxJobs == |entries| && at < |entries|
    requires e.inUse && e.job == job && e.concurrent == (if job in jobs then jobs[job] else 0) && (job in jobs || |jobs| < |entries|)
    requires !entries[at].inUse || entries[at].job == job
    requires forall b :: 0 <= b < |entries| && b != at && entries[b].inUse ==> entries[b].job != job
    ensures SameJobs(X.Increment(x, jobs, job), entries[at := A.Bumped(e)])
  {
    SameJobsUpdate(a, jobs, entries, at, A.Bumped(e));
    assert X.Increment(x, jobs, job) == jobs[job := A.Bumped(e).concurrent];
  }

  /** The quota decision and the counter agree on both sides. */
  lemma AdmitAgrees(x: X.Config, a: A.Config, jobs: map<u32, u32>, entries: seq<A.JobEntry>, job: u32)
    requires SameJobs(jobs, entries) && MapLike(A.JobView(entries), a.jobHash)
    requires x.quota == a.quota && x.populated && x.maxJobs == |entries|
    ensures A.AdmitJob(a, entries, job).0 <==> !X.AtQuota(x, jobs, job)
    ensures SameJobs(if X.AtQuota(x, jobs, job) then jobs else X.Increment(x, jobs, job), A.AdmitJob(a, entries, job).1)
  {
    if A.AdmitJob(a, entries, job).0 {
      AdmissionAgrees(x, a, jobs, entries, job);
    } else {
      RefusalAgrees(x, a, jobs, entries, job);
    }
  }

  lemma ReleaseAgrees(a: A.Config, jobs: map<u32, u32>, cells: seq<A.Cell>, entries: seq<A.JobEntry>, freed: seq<u32>, i: nat)
    requires SameJobs(jobs, entries) && JobsOk(a, cells, entries, freed)
    requires i < |cells| < TWO32 && cells[i].inUse
    ensures SameJobs(X.Decrement(jobs, cells[i].key.job), A.ReleaseJob(a, entries, cells[i].key.job))
  {
    var job := cells[i].key.job;
    ReleaseKeepsJobsOk(a, cells, entries, freed, i);
    FindOrCreateJobOnMap(a, entries, job);
    TrackedIsKey(entries, job);
    var (at, jobs1) := A.FindOrCreateJob(a, entries, job);
    if at.Some? {
      var k := at.value;
      assert entries[k].inUse && entries[k].job == job;
      SameJobsUpdate(a, jobs, entries, k, entries[k].(concurrent := entries[k].concurrent - 1));
    }
  }

  // ------------------------------------------------------------ the slot table

  lemma KeyInUse(cells: seq<A.Cell>, key: Key)
    ensures key in Keys(A.SlotView(cells)) <==> exists i :: 0 <= i < |cells| && cells[i].inUse && cells[i].key == key
  {
    var v := A.SlotView(cells);
    if exists i :: 0 <= i < |cells| && cells[i].inUse && cells[i].key == key {
      var i :| 0 <= i < |cells| && cells[i].inUse && cells[i].key == key;
      assert v[i].Some? && v[i].value == key;
    }
  }

  /** Rewriting one key's slot on both sides. */
  lemma SameSlotsUpdate(a: A.Config, slots: map<Key, X.Slot>, cells: seq<A.Cell>, i: nat, s: X.Slot, c: A.Cell)
    requires SameSlots(slots, cells) && i < |cells| && c.inUse && SameSlot(s, c)
    requires !cells[i].inUse || cells[i].key == c.key
    requires forall j :: 0 <= j < |cells| && j != i && cells[j].inUse ==> cells[j].key != c.key
    ensures SameSlots(slots[c.key := s], cells[i := c])
  {
    var v, v' := A.SlotView(cells), A.SlotView(cells[i := c]);
    assert v' == v[i := Some(c.key)];
    KeysInsert(v, i, c.key);
  }

  lemma OnlyCell(a: A.Config, cells: seq<A.Cell>, i: nat)
    requires MapLike(A.SlotView(cells), a.slotHash) && i < |cells| && cells[i].inUse
    ensures forall j :: 0 <= j < |cells| && j != i && cells[j].inUse ==> cells[j].key != cells[i].key
  {
    var v := A.SlotView(cells);
    forall j | 0 <= j < |cells| && j != i && cells[j].inUse ensures cells[j].key != cells[i].key {
      if cells[j].key == cells[i].key {
        assert v[i] == v[j];
        KeysDistinct(v, a.slotHash, i, j);
      }
    }
  }

  /** Removing one key's slot on both sides. */
  lemma SameSlotsRemove(a: A.Config, slots: map<Key, X.Slot>, cells: seq<A.Cell>, i: nat, c: A.Cell)
    requires SameSlots(slots, cells) && MapLike(A.SlotView(cells), a.slotHash)
    requires i < |cells| && cells[i].inUse && !c.inUse
    ensures SameSlots(slots - {cells[i].key}, cells[i := c])
  {
    var key, cells' := cells[i].key, cells[i := c];
    OnlyCell(a, cells, i);
    forall k ensures k in (slots - {key}).Keys <==> k in Keys(A.SlotView(cells')) {
      KeyInUse(cells, k);
      KeyInUse(cells', k);
      if k != key && k in slots {
        var j :| 0 <= j < |cells| && cells[j].inUse && cells[j].key == k;
        assert cells'[j].inUse && cells'[j].key == k;
      }
    }
  }

  lemma SlotCounts(a: A.Config, slots: map<Key, X.Slot>, cells: seq<A.Cell>)
    requires SameSlots(slots, cells) && MapLike(A.SlotView(cells), a.slotHash)
    ensures |slots| <= |cells| && (|slots| == |cells| <==> forall i :: 0 <= i < |cells| ==> cells[i].inUse)
  {
    var v := A.SlotView(cells);
    FullIffKeyCount(v, a.slotHash);
    assert |slots| == |slots.Keys|;
    assert forall i :: 0 <= i < |cells| ==> (v[i].Some? <==> cells[i].inUse);
  }

  lemma FreshSame(p: Packet)
    ensures SameSlot(X.Fresh(p), A.Latch(A.Claimed(p.key), p))
  {
    forall w | 0 <= w < MAX_WORKERS ensures !Test(NoneMarked(), w) {
      NoneHasNone(w);
    }
  }

  lemma AcceptSame(s: X.Slot, c: A.Cell, p: Packet, now: int)
    requires SameSlot(s, c) && Bounded(p)
    ensures SameSlot(X.Accumulated(s, p), A.Accepting(c, p, now))
  {
    forall w | 0 <= w < MAX_WORKERS
      ensures Test(Mark(s.seen, p.worker), w) <==> c.seen[p.worker := true][w]
    {
      MarkAddsOne(s.seen, p.worker, w);
    }
  }

  /** Where probing for a key ends: its slot, a free cell, or nowhere in a full table. */
  /** The probe gives up exactly when the map side is full and lacks the key. */
  lemma GivesUpAgrees(m: X.Maps, a: A.Config, st: A.State, key: Key)
    requires MapLike(A.SlotView(st.cells), a.slotHash) && SameSlots(m.slots, st.cells)
    ensures Find(A.SlotView(st.cells), a.slotHash(key), key) == |st.cells| <==> key !in m.slots && |m.slots| >= |st.cells|
  {
    var v := A.SlotView(st.cells);
    SlotCounts(a, m.slots, st.cells);
    KeyInUse(st.cells, key);
    GivesUpIffFullAndAbsent(v, a.slotHash(key), key);
    assert forall j :: 0 <= j < |v| ==> v[j] == if st.cells[j].inUse then Some(st.cells[j].key) else None;
  }

  lemma ProbeAgrees(m: X.Maps, a: A.Config, st: A.State, key: Key)
    requires MapLike(A.SlotView(st.cells), a.slotHash) && SameSlots(m.slots, st.cells)
    ensures var n := |st.cells|;
            var d := Find(A.SlotView(st.cells), a.slotHash(key), key);
            && (d == n <==> key !in m.slots && |m.slots| >= n)
            && (d < n ==>
                  var i := At(a.slotHash(key), d, n);
                  && (st.cells[i].inUse <==> key in m.slots)
                  && (st.cells[i].inUse ==> st.cells[i].key == key)
                  && MapLike(A.SlotView(st.cells)[i := Some(key)], a.slotHash))
  {
    var v := A.SlotView(st.cells);
    GivesUpAgrees(m, a, st, key);
    SettlesOnOnlyCell(v, a.slotHash, key);
    KeyInUse(st.cells, key);
    var d := Find(v, a.slotHash(key), key);
    if key in m.slots {
      var j :| 0 <= j < |v| && v[j] == Some(key);
      assert d < |v| && j == At(a.slotHash(key), d, |v|);
    }
  }

  /** Where the two lookups lead: the same slot, a fresh one on both sides, or nowhere on both. */
  lemma LookupAgrees(x: X.Config, m: X.Maps, a: A.Config, st: A.State, p: Packet)
    requires Simulates(x, m, a, st)
    ensures var r := A.FindOrCreateSlot(a, st, p.key);
            if p.key in m.slots then
              r.0.Some? && r.1 == st && st.cells[r.0.value].inUse && st.cells[r.0.value].key == p.key
            else if X.AtQuota(x, m.jobs, p.key.job) || |m.slots| >= x.maxSlots then
              r.0.None? && r.1.cells == st.cells && SameJobs(m.jobs, r.1.jobs)
            else
              && r.0.Some? && !st.cells[r.0.value].inUse
              && r.1.cells == st.cells[r.0.value := A.Claimed(p.key)]
              && MapLike(A.SlotView(st.cells)[r.0.value := Some(p.key)], a.slotHash)
              && SameJobs(X.Increment(x, m.jobs, p.key.job), r.1.jobs)
  {
    ProbeAgrees(m, a, st, p.key);
    AdmitAgrees(x, a, m.jobs, st.jobs, p.key.job);
  }

  /** The contribution step on a slot both sides agree on. */
  lemma ContributeAgrees(x: X.Config, m: X.Maps, a: A.Config, st: A.State, i: nat, p: Packet, now: int)
    requires X.Shaped(m) && Inv(a, st) && x.populated && A.Admissible(p)
    requires i < |st.cells| && st.cells[i].inUse && st.cells[i].key == p.key
    requires forall j :: 0 <= j < |st.cells| && j != i && st.cells[j].inUse ==> st.cells[j].key != p.key
    requires MapLike(A.SlotView(st.cells), a.slotHash)
    requires p.key in m.slots && SameSlot(m.slots[p.key], A.Latch(st.cells[i], p))
    requires SameSlots(m.slots, st.cells[i := A.Latch(st.cells[i], p)]) && SameJobs(m.jobs, st.jobs)
    ensures var r, o := X.Contribute(x, m, p), A.Contribute(a, st, i, p, now);
            && SameVerdict(r.0, o.0)
            && SameJobs(r.1.jobs, o.1.jobs)
            && (o.0.WrongLength? || SameSlots(r.1.slots, o.1.cells))
  {
    var s, c := m.slots[p.key], A.Latch(st.cells[i], p);
    var cells := st.cells[i := c];
    if c.chunkLen == |p.values| && !c.seen[p.worker] {
      var s', c' := X.Accumulated(s, p), A.Accepting(c, p, now);
      AcceptSame(s, c, p, now);
      AcceptingOk(st.cells[i], p, now);
      if c'.received < c'.expected {
        SameSlotsUpdate(a, m.slots, cells, i, s', c');
        assert cells[i := c'] == st.cells[i := c'];
      } else {
        assert A.SlotView(cells) == A.SlotView(st.cells);
        SameSlotsRemove(a, m.slots, cells, i, c'.(inUse := false));
        assert cells[i := c'.(inUse := false)] == st.cells[i := c'][i := c'.(inUse := false)];
        SameOwnerKeepsJobsOk(a, st, i, c');
        ReleaseAgrees(a, m.jobs, st.cells[i := c'], st.jobs, st.freed, i);
      }
    }
  }

  lemma KnownSlotAgrees(x: X.Config, m: X.Maps, a: A.Config, st: A.State, i: nat, p: Packet, now: int)
    requires X.Shaped(m) && Simulates(x, m, a, st) && A.Admissible(p)
    requires i < |st.cells| && st.cells[i].inUse && st.cells[i].key == p.key && p.key in m.slots
    ensures var r, o := X.Contribute(x, m, p), A.Contribute(a, st, i, p, now);
            SameVerdict(r.0, o.0) && SameJobs(r.1.jobs, o.1.jobs) && SameSlots(r.1.slots, o.1.cells)
  {
    assert st.cells[i].contribs != [];
    assert A.Latch(st.cells[i], p) == st.cells[i] && st.cells[i := st.cells[i]] == st.cells;
    OnlyCell(a, st.cells, i);
    ContributeAgrees(x, m, a, st, i, p, now);
  }

  lemma FreshSlotAgrees(x: X.Config, m: X.Maps, a: A.Config, st: A.State, i: nat, st1: A.State, p: Packet, now: int)
    requires X.Shaped(m) && SameSlots(m.slots, st.cells) && x.populated && A.Admissible(p)
    requires i < |st.cells| && !st.cells[i].inUse && p.key !in m.slots
    requires st1.cells == st.cells[i := A.Claimed(p.key)] && Inv(a, st1)
    requires MapLike(A.SlotView(st.cells)[i := Some(p.key)], a.slotHash)
    requires SameJobs(X.Increment(x, m.jobs, p.key.job), st1.jobs)
    ensures var m1 := X.Maps(m.slots[p.key := X.Fresh(p)], X.Increment(x, m.jobs, p.key.job));
            var r, o := X.Contribute(x, m1, p), A.Contribute(a, st1, i, p, now);
            SameVerdict(r.0, o.0) && SameJobs(r.1.jobs, o.1.jobs) && SameSlots(r.1.slots, o.1.cells)
  {
    var c := A.Latch(A.Claimed(p.key), p);
    var m1 := X.Maps(m.slots[p.key := X.Fresh(p)], X.Increment(x, m.jobs, p.key.job));
    KeyInUse(st.cells, p.key);
    FreshSame(p);
    SameSlotsUpdate(a, m.slots, st.cells, i, X.Fresh(p), c);
    assert st.cells[i := c] == st1.cells[i := c];
    assert A.SlotView(st1.cells) == A.SlotView(st.cells)[i := Some(p.key)];
    ContributeAgrees(x, m1, a, st1, i, p, now);
  }

  /** One packet: same verdict, and the simulation goes on if the userspace table stays map-like. */
  lemma StepAgrees(x: X.Config, m: X.Maps, a: A.Config, st: A.State, p: Packet, now: int)
    requires X.Shaped(m) && Simulates(x, m, a, st) && (Bounded(p) ==> ValidFanIn(p.numWorkers))
    requires MapLike(A.SlotView(A.Process(a, st, p, now).1.cells), a.slotHash)
    ensures SameVerdict(X.Step(x, m, p).0, A.Process(a, st, p, now).0)
    ensures Simulates(x, X.Step(x, m, p).1, a, A.Process(a, st, p, now).1)
  {
    if Bounded(p) {
      ParsedStepAgrees(x, m, a, st, p, now);
    }
  }

  lemma ParsedStepAgrees(x: X.Config, m: X.Maps, a: A.Config, st: A.State, p: Packet, now: int)
    requires X.Shaped(m) && Simulates(x, m, a, st) && A.Admissible(p)
    requires MapLike(A.SlotView(A.Process(a, st, p, now).1.cells), a.slotHash)
    ensures SameVerdict(X.Step(x, m, p).0, A.Process(a, st, p, now).0)
    ensures Simulates(x, X.Step(x, m, p).1, a, A.Process(a, st, p, now).1)
  {
    LookupAgrees(x, m, a, st, p);
    ProcessKeepsInv(a, st, p, now);
    var r := A.FindOrCreateSlot(a, st, p.key);
    if r.0.Some? {
      if p.key in m.slots {
        KnownSlotAgrees(x, m, a, st, r.0.value, p, now);
      } else {
        FindOrCreateSlotKeepsInv(a, st, p.key);
        FreshSlotAgrees(x, m, a, st, r.0.value, r.1, p, now);
      }
    }
  }

  // ------------------------------------------------------------------ whole runs

  /** The userspace run is fed the same packets, malformed ones included, with the reaper off; no parsed packet has a bad fan-in. */
  ghost predicate SamePackets(ps: seq<Packet>, events: seq<A.Event>) {
    |ps| == |events| && forall k :: 0 <= k < |ps| ==> events[k].Arrival? && events[k].p == ps[k] && (Bounded(ps[k]) ==> ValidFanIn(ps[k].numWorkers))
  }

  /** No free along the run ever hides a live key. */
  ghost predicate StaysMapLike(a: A.Config, slots: nat, jobs: nat, events: seq<A.Event>)
    requires 0 < slots && 0 < jobs
  {
    forall k :: 0 <= k <= |events| ==> MapLikeAfter(a, slots, jobs, events[..k])
  }

  ghost predicate MapLikeAfter(a: A.Config, slots: nat, jobs: nat, events: seq<A.Event>)
    requires 0 < slots && 0 < jobs
  {
    MapLike(A.SlotView(A.Run(a, slots, jobs, events).cells), a.slotHash)
  }

  /** The packets emitted, in order, on either side. */
  ghost function Transmitted(x: X.Config, ps: seq<Packet>): seq<(Key, seq<i32>)> {
    if ps == [] then []
    else
      var v := X.Step(x, X.Run(x, ps[..|ps| - 1]), ps[|ps| - 1]).0;
      Transmitted(x, ps[..|ps| - 1]) + if v.Tx? then [(v.key, v.values)] else []
  }

  ghost function SentOn(es: seq<A.Emission>): seq<(Key, seq<i32>)> {
    if es == [] then []
    else SentOn(es[..|es| - 1]) + [(es[|es| - 1].key, es[|es| - 1].values)]
  }

  lemma EmittedGrows(a: A.Config, st: A.State, p: Packet, now: int)
    requires A.Shaped(st.cells, st.jobs)
    ensures var o := A.Process(a, st, p, now);
            o.1.emitted == st.emitted + if o.0.Sent? then [o.0.emission] else []
  {
    if A.Admissible(p) {
      SlotHandedOut(a, st, p.key);
    }
  }

  lemma EmptySimulates(x: X.Config, a: A.Config, slots: nat, jobs: nat)
    requires 0 < slots < TWO32 && 0 < jobs
    requires x.quota == a.quota && x.populated && x.maxSlots == slots && x.maxJobs == jobs
    ensures Simulates(x, X.Maps(map[], map[]), a, A.Empty(slots, jobs))
  {
    var st := A.Empty(slots, jobs);
    EmptyInv(a, slots, jobs);
    assert Keys(A.SlotView(st.cells)) == {} && Keys(A.JobView(st.jobs)) == {};
  }

  lemma MapLikePrefix(a: A.Config, slots: nat, jobs: nat, events: seq<A.Event>)
    requires 0 < slots && 0 < jobs && events != [] && StaysMapLike(a, slots, jobs, events)
    ensures StaysMapLike(a, slots, jobs, events[..|events| - 1])
    ensures MapLikeAfter(a, slots, jobs, events)
  {
    var front := events[..|events| - 1];
    forall k | 0 <= k <= |front| ensures MapLikeAfter(a, slots, jobs, front[..k]) {
      assert front[..k] == events[..k];
    }
    assert events[..|events|] == events;
  }

  lemma SentOnSnoc(es: seq<A.Emission>, e: A.Emission)
    ensures SentOn(es + [e]) == SentOn(es) + [(e.key, e.values)]
  {
    assert (es + [e])[..|es|] == es;
  }

  /** One more packet on both sides. */
  lemma EmissionsAgree(x: X.Config, m: X.Maps, a: A.Config, st: A.State, p: Packet, now: int, sent: seq<(Key, seq<i32>)>)
    requires X.Shaped(m) && A.Shaped(st.cells, st.jobs) && sent == SentOn(st.emitted)
    requires SameVerdict(X.Step(x, m, p).0, A.Process(a, st, p, now).0)
    ensures var v := X.Step(x, m, p).0;
            SentOn(A.Process(a, st, p, now).1.emitted) == sent + if v.Tx? then [(v.key, v.values)] else []
  {
    EmittedGrows(a, st, p, now);
    var o := A.Process(a, st, p, now).0;
    if o.Sent? {
      SentOnSnoc(st.emitted, o.emission);
    } else {
      assert st.emitted + [] == st.emitted;
    }
  }

  lemma RunUnfolds(a: A.Config, slots: nat, jobs: nat, events: seq<A.Event>)
    requires 0 < slots && 0 < jobs && events != [] && events[|events| - 1].Arrival?
    ensures var e := events[|events| - 1];
            A.Run(a, slots, jobs, events) == A.Process(a, A.Run(a, slots, jobs, events[..|events| - 1]), e.p, e.now).1
  {
  }

  /**
   Stateful parity: on any stream of packets with valid fan-in, with equal quotas
   and capacities, while the userspace table stays map-like, the two aggregators
   hold the same slots and counters and have emitted the same packets.
   */
  lemma {:induction false} RunsAgree(x: X.Config, a: A.Config, slots: nat, jobs: nat, ps: seq<Packet>, events: seq<A.Event>)
    requires 0 < slots < TWO32 && 0 < jobs
    requires x.quota == a.quota && x.populated && x.maxSlots == slots && x.maxJobs == jobs
    requires SamePackets(ps, events) && StaysMapLike(a, slots, jobs, events)
    ensures Simulates(x, X.Run(x, ps), a, A.Run(a, slots, jobs, events))
    ensures Transmitted(x, ps) == SentOn(A.Run(a, slots, jobs, events).emitted)
  {
    if ps == [] {
      EmptySimulates(x, a, slots, jobs);
    } else {
      var n := |ps| - 1;
      MapLikePrefix(a, slots, jobs, events);
      RunsAgree(x, a, slots, jobs, ps[..n], events[..n]);
      var m, st := X.Run(x, ps[..n]), A.Run(a, slots, jobs, events[..n]);
      RunUnfolds(a, slots, jobs, events);
      StepAgrees(x, m, a, st, ps[n], events[n].now);
      EmissionsAgree(x, m, a, st, ps[n], events[n].now, Transmitted(x, ps[..n]));
    }
  }

  // ------------------------------------------------------------ where they differ

  /**
   The one admission asymmetry: userspace refuses an invalid fan-in on every
   packet, the kernel program only when the packet would create a slot. They
   still agree exactly when the slot is missing or would not take the packet.
   */
  lemma InvalidFanInAgreesIff(x: X.Config, m: X.Maps, a: A.Config, st: A.State, p: Packet, now: int)
    requires X.Shaped(m) && A.Shaped(st.cells, st.jobs) && Bounded(p) && !ValidFanIn(p.numWorkers)
    ensures A.Process(a, st, p, now) == (A.Malformed, st)
    ensures X.Step(x, m, p) == (X.Drop, m) <==>
            p.key !in m.slots || m.slots[p.key].chunkLen != |p.values| || Test(m.slots[p.key].seen, p.worker)
  {
    if p.key in m.slots && m.slots[p.key].chunkLen == |p.values| && !Test(m.slots[p.key].seen, p.worker) {
      var s := m.slots[p.key];
      MarkAddsOne(s.seen, p.worker, p.worker);
      assert X.Accumulated(s, p) != s;
      if X.Step(x, m, p).1 == m {
        assert p.key in X.Step(x, m, p).1.slots;
      }
    }
  }

  const CHUNK := Key(0, 0, 0)

  /** A round of two workers whose second packet says that there are none. */
  function Sound(): Packet {
    Packet(CHUNK, 0, 2, [])
  }

  function Odd(): Packet {
    Packet(CHUNK, 1, 0, [])
  }

  lemma OpenedBySound(x: X.Config)
    requires 1 <= x.maxSlots
    ensures X.Step(x, X.Maps(map[], map[]), Sound()).1.slots == map[CHUNK := X.Accumulated(X.Fresh(Sound()), Sound())]
  {
    NoneHasNone(0);
  }

  lemma ForwardsOdd(x: X.Config, m: X.Maps)
    requires x.populated && X.Shaped(m) && m.slots == map[CHUNK := X.Accumulated(X.Fresh(Sound()), Sound())]
    ensures X.Step(x, m, Odd()).0.Tx?
  {
    NoneHasNone(1);
    MarkAddsOne(NoneMarked(), 0, 1);
  }

  lemma SoundSimulated(x: X.Config, a: A.Config, slots: nat, jobs: nat)
    requires 0 < slots < TWO32 && 0 < jobs
    requires x.quota == a.quota && x.populated && x.maxSlots == slots && x.maxJobs == jobs
    ensures Simulates(x, X.Step(x, X.Maps(map[], map[]), Sound()).1, a, A.Process(a, A.Empty(slots, jobs), Sound(), 1).1)
  {
    var st := A.Empty(slots, jobs);
    EmptySimulates(x, a, slots, jobs);
    var r := A.FindOrCreateSlot(a, st, CHUNK);
    SlotHandedOut(a, st, CHUNK);
    assert r.0.Some? ==> r.1.cells[r.0.value].received == 0;
    PacketKeepsFindableIff(a, st, Sound(), 1);
    StepAgrees(x, X.Maps(map[], map[]), a, st, Sound(), 1);
  }

  /**
   A reachable pair of states on which they differ: after the first packet of a
   round the two aggregators still simulate each other; on the second, with a
   num_workers of 0, the kernel program forwards the round and userspace refuses it.
   */
  lemma InvalidFanInDiverges(x: X.Config, a: A.Config, slots: nat, jobs: nat)
    requires 0 < slots < TWO32 && 0 < jobs
    requires x.quota == a.quota && x.populated && x.maxSlots == slots && x.maxJobs == jobs
    ensures var m, st := X.Run(x, [Sound()]), A.Run(a, slots, jobs, [A.Arrival(Sound(), 1)]);
            && Simulates(x, m, a, st)
            && X.Step(x, m, Odd()).0.Tx? && A.Process(a, st, Odd(), 2) == (A.Malformed, st)
  {
    assert [Sound()][..0] == [] && [A.Arrival(Sound(), 1)][..0] == [];
    assert X.Run(x, [Sound()]) == X.Step(x, X.Maps(map[], map[]), Sound()).1;
    assert A.Run(a, slots, jobs, [A.Arrival(Sound(), 1)]) == A.Process(a, A.Empty(slots, jobs), Sound(), 1).1;
    SoundSimulated(x, a, slots, jobs);
    OpenedBySound(x);
    ForwardsOdd(x, X.Run(x, [Sound()]));
  }
}
