/**
 The kernel program run one packet at a time: the two BPF hash maps, the seen
 bitmap, and the path from the parsed header to the verdict. The class updates
 the maps in place; the functions say what one packet does to them.
 */
module XdpProgram {
  import opened GradProto
  import opened SeenBitmap

  datatype Slot = Slot(sum: seq<i32>, chunkLen: int, expected: int, received: int, seen: Bitmap)

  /** max_slots_per_job (0 = unlimited), whether config_map is populated, and the maps' max_entries. */
  datatype Config = Config(quota: u32, populated: bool, maxSlots: nat, maxJobs: nat)

  datatype Maps = Maps(slots: map<Key, Slot>, jobs: map<u32, u32>)

  /** XDP_DROP, or XDP_TX with the rewritten payload. */
  datatype Verdict = Drop | Tx(key: Key, values: seq<i32>)

  predicate ShapedSlot(s: Slot) {
    |s.sum| == MAX_CHUNK_LEN
  }

  predicate Shaped(m: Maps) {
    forall k :: k in m.slots ==> ShapedSlot(m.slots[k])
  }

  function Fresh(p: Packet): Slot {
    Slot(ZeroSum(), |p.values|, p.numWorkers, 0, NoneMarked())
  }

  // ---------------------------------------------------------- specification

  /** job_quota_increment. */
  function Increment(cfg: Config, jobs: map<u32, u32>, job: u32): map<u32, u32> {
    if job in jobs then jobs[job := (jobs[job] + 1) % TWO32]
    else if |jobs| < cfg.maxJobs then jobs[job := 1]
    else jobs
  }

  /** job_quota_decrement. */
  function Decrement(jobs: map<u32, u32>, job: u32): map<u32, u32> {
    if job in jobs && jobs[job] > 0 then jobs[job := jobs[job] - 1] else jobs
  }

  /** What a job is charged; a missing entry charges nothing. */
  function Charge(jobs: map<u32, u32>, job: u32): u32 {
    if job in jobs then jobs[job] else 0
  }

  /** A teardown takes back exactly what the creation charged, unless the charge wrapped to 0; other jobs never notice. */
  lemma DecrementUndoesIncrement(cfg: Config, jobs: map<u32, u32>, job: u32)
    requires job in jobs || |jobs| < cfg.maxJobs
    ensures var jobs' := Decrement(Increment(cfg, jobs, job), job);
            && (Charge(jobs', job) == Charge(jobs, job) <==> Charge(jobs, job) + 1 < TWO32)
            && forall j :: j != job ==> Charge(jobs', j) == Charge(jobs, j)
  {
  }

  /** And a creation restores what a teardown took, unless its guard found nothing to take. */
  lemma IncrementUndoesDecrement(cfg: Config, jobs: map<u32, u32>, job: u32)
    requires job in jobs
    ensures Increment(cfg, Decrement(jobs, job), job) == jobs <==> Charge(jobs, job) > 0
  {
    if jobs[job] > 0 {
      assert jobs[job := jobs[job] - 1][job := jobs[job]] == jobs;
    }
  }

  predicate AtQuota(cfg: Config, jobs: map<u32, u32>, job: u32) {
    cfg.populated && cfg.quota > 0 && job in jobs && jobs[job] >= cfg.quota
  }

  /** Lookup, or quota check and creation; no slot means the packet is dropped. */
  function Open(cfg: Config, m: Maps, p: Packet): Maps {
    if p.key in m.slots || !ValidFanIn(p.numWorkers) || AtQuota(cfg, m.jobs, p.key.job) || |m.slots| >= cfg.maxSlots then m
    else Maps(m.slots[p.key := Fresh(p)], Increment(cfg, m.jobs, p.key.job))
  }

  function Accumulated(s: Slot, p: Packet): Slot
    requires p.worker < MAX_WORKERS
  {
    s.(sum := Accumulate(s.sum, p), received := (s.received + 1) % TWO16, seen := Mark(s.seen, p.worker))
  }

  /** The locked region and what follows it. */
  function Contribute(cfg: Config, m: Maps, p: Packet): (r: (Verdict, Maps))
    requires Shaped(m) && p.key in m.slots && Bounded(p)
    ensures Shaped(r.1)
  {
    var s := m.slots[p.key];
    if s.chunkLen != |p.values| || Test(s.seen, p.worker) then (Drop, m)
    else
      var s' := Accumulated(s, p);
      if s'.received != s'.expected then (Drop, m.(slots := m.slots[p.key := s']))
      else (if cfg.populated then Tx(p.key, s'.sum[..s'.chunkLen]) else Drop,
            Maps(m.slots - {p.key}, Decrement(m.jobs, p.key.job)))
  }

  function Step(cfg: Config, m: Maps, p: Packet): (r: (Verdict, Maps))
    requires Shaped(m)
    ensures Shaped(r.1)
  {
    if !Bounded(p) then (Drop, m)
    else
      var m1 := Open(cfg, m, p);
      if p.key in m1.slots then Contribute(cfg, m1, p) else (Drop, m1)
  }

  // ---------------------------------------------------------- the maps in place

  class Program {
    const cfg: Config
    var slots: map<Key, Slot>
    var jobs: map<u32, u32>

    ghost predicate Valid()
      reads this
    {
      Shaped(Current())
    }

    ghost function Current(): Maps
      reads this
    {
      Maps(slots, jobs)
    }

    constructor (cfg: Config)
      ensures Valid() && this.cfg == cfg && Current() == Maps(map[], map[])
    {
      this.cfg := cfg;
      slots, jobs := map[], map[];
    }

    method IncrementJob(job: u32)
      modifies this`jobs
      ensures jobs == Increment(cfg, old(jobs), job)
    {
      if job in jobs {
        jobs := jobs[job := (jobs[job] + 1) % TWO32];
      } else if |jobs| < cfg.maxJobs {
        jobs := jobs[job := 1];
      }
    }

    method DecrementJob(job: u32)
      modifies this`jobs
      ensures jobs == Decrement(old(jobs), job)
    {
      if job in jobs && jobs[job] > 0 {
        jobs := jobs[job := jobs[job] - 1];
      }
    }

    /** From a miss in slot_map to the slot, or to a drop. */
    method OpenSlot(p: Packet) returns (ok: bool)
      requires Valid()
      modifies this
      ensures Valid() && Current() == Open(cfg, old(Current()), p)
      ensures ok <==> p.key in slots
    {
      if p.key in slots {
        return true;
      }
      if p.numWorkers == 0 || p.numWorkers > 32 * 8 {
        return false;
      }
      if cfg.populated && cfg.quota > 0 {
        if p.key.job in jobs && jobs[p.key.job] >= cfg.quota {
          return false;
        }
      }
      if |slots| < cfg.maxSlots {
        slots := slots[p.key := Fresh(p)];
        IncrementJob(p.key.job);
      }
      ok := p.key in slots;
    }

    /** The write-back loop: the packet's payload is overwritten with the sums. */
    method WriteBack(sum: seq<i32>, len: nat) returns (values: seq<i32>)
      requires len <= |sum|
      ensures values == sum[..len]
    {
      values := [];
      var i := 0;
      while i < len
        invariant 0 <= i <= len && values == sum[..i]
      {
        values := values + [sum[i]];
        i := i + 1;
      }
    }

    method ContributeTo(p: Packet) returns (verdict: Verdict)
      requires Valid() && p.key in slots && Bounded(p)
      modifies this
      ensures Valid() && (verdict, Current()) == Contribute(cfg, old(Current()), p)
    {
      var slot := slots[p.key];
      if slot.chunkLen != |p.values| || Test(slot.seen, p.worker) {
        return Drop;
      }
      slot := slot.(seen := Mark(slot.seen, p.worker));
      var sum := AccumulateLanes(slot.sum, p);
      slot := slot.(sum := sum, received := (slot.received + 1) % TWO16);
      if slot.received != slot.expected {
        slots := slots[p.key := slot];
        return Drop;
      }
      var values := WriteBack(slot.sum, slot.chunkLen);
      slots := slots - {p.key};
      DecrementJob(p.key.job);
      verdict := if cfg.populated then Tx(p.key, values) else Drop;
    }

    method Handle(p: Packet) returns (verdict: Verdict)
      requires Valid()
      modifies this
      ensures Valid() && (verdict, Current()) == Step(cfg, old(Current()), p)
    {
      if |p.values| > MAX_CHUNK_LEN || p.worker >= 32 * 8 {
        return Drop;
      }
      var ok := OpenSlot(p);
      if !ok {
        return Drop;
      }
      verdict := ContributeTo(p);
    }
  }

  // -------------------------------------------------------------------- runs

  function Run(cfg: Config, ps: seq<Packet>): (m: Maps)
    ensures Shaped(m)
  {
    if ps == [] then Maps(map[], map[]) else Step(cfg, Run(cfg, ps[..|ps| - 1]), ps[|ps| - 1]).1
  }

  // --------------------------------------------------------- tenant isolation

  function Of(ps: seq<Packet>, job: u32): seq<Packet> {
    if ps == [] then []
    else Of(ps[..|ps| - 1], job) + if ps[|ps| - 1].key.job == job then [ps[|ps| - 1]] else []
  }

  /** The verdicts job `job` gets in the run of the whole stream. */
  ghost function VerdictsOf(cfg: Config, ps: seq<Packet>, job: u32): seq<Verdict> {
    if ps == [] then []
    else
      var front, p := ps[..|ps| - 1], ps[|ps| - 1];
      VerdictsOf(cfg, front, job) + if p.key.job == job then [Step(cfg, Run(cfg, front), p).0] else []
  }

  /** All verdicts of a run. */
  ghost function Verdicts(cfg: Config, ps: seq<Packet>): seq<Verdict> {
    if ps == [] then []
    else Verdicts(cfg, ps[..|ps| - 1]) + [Step(cfg, Run(cfg, ps[..|ps| - 1]), ps[|ps| - 1]).0]
  }

  /** Neither map ever fills up along the run. */
  ghost predicate NeverFull(cfg: Config, ps: seq<Packet>) {
    forall k :: 0 <= k <= |ps| ==> |Run(cfg, ps[..k]).slots| < cfg.maxSlots && |Run(cfg, ps[..k]).jobs| < cfg.maxJobs
  }

  /** `part` is what job `job` owns of `whole`. */
  ghost predicate PartOf(part: Maps, whole: Maps, job: u32) {
    && (forall k :: k in part.slots <==> k in whole.slots && k.job == job)
    && (forall k :: k in part.slots ==> part.slots[k] == whole.slots[k])
    && (forall j :: j in part.jobs <==> j in whole.jobs && j == job)
    && (forall j :: j in part.jobs ==> part.jobs[j] == whole.jobs[j])
  }

  lemma PartSmaller(part: Maps, whole: Maps, job: u32)
    requires PartOf(part, whole, job)
    ensures |part.slots| <= |whole.slots| && |part.jobs| <= |whole.jobs|
  {
    assert part.slots.Keys <= whole.slots.Keys && part.jobs.Keys <= whole.jobs.Keys;
    KeySubset(part.slots, whole.slots);
    KeySubset(part.jobs, whole.jobs);
  }

  lemma KeySubset<K, V>(a: map<K, V>, b: map<K, V>)
    requires a.Keys <= b.Keys
    ensures |a| <= |b|
  {
    assert b.Keys == a.Keys + (b.Keys - a.Keys);
    assert |a| == |a.Keys| && |b| == |b.Keys|;
  }

  lemma ContributeOfOther(cfg: Config, part: Maps, whole: Maps, job: u32, p: Packet)
    requires Shaped(whole) && PartOf(part, whole, job) && p.key.job != job
    requires p.key in whole.slots && Bounded(p)
    ensures PartOf(part, Contribute(cfg, whole, p).1, job)
  {
  }

  lemma OpenOfOther(cfg: Config, part: Maps, whole: Maps, job: u32, p: Packet)
    requires PartOf(part, whole, job) && p.key.job != job
    ensures PartOf(part, Open(cfg, whole, p), job)
  {
  }

  /** Another job's packet leaves this job's part alone. */
  lemma OthersDoNotTouch(cfg: Config, part: Maps, whole: Maps, job: u32, p: Packet)
    requires Shaped(whole) && PartOf(part, whole, job) && p.key.job != job
    ensures PartOf(part, Step(cfg, whole, p).1, job)
  {
    if Bounded(p) {
      OpenOfOther(cfg, part, whole, job, p);
      if p.key in Open(cfg, whole, p).slots {
        ContributeOfOther(cfg, part, Open(cfg, whole, p), job, p);
      }
    }
  }

  lemma IncrementOnPart(cfg: Config, part: Maps, whole: Maps, job: u32)
    requires PartOf(part, whole, job) && |whole.jobs| < cfg.maxJobs
    ensures PartOf(part.(jobs := Increment(cfg, part.jobs, job)), whole.(jobs := Increment(cfg, whole.jobs, job)), job)
  {
    PartSmaller(part, whole, job);
  }

  lemma CreateOnPart(part: Maps, whole: Maps, key: Key, s: Slot)
    requires PartOf(part, whole, key.job)
    ensures PartOf(part.(slots := part.slots[key := s]), whole.(slots := whole.slots[key := s]), key.job)
  {
  }

  lemma OpenOnPart(cfg: Config, part: Maps, whole: Maps, p: Packet)
    requires PartOf(part, whole, p.key.job)
    requires |whole.slots| < cfg.maxSlots && |whole.jobs| < cfg.maxJobs
    ensures PartOf(Open(cfg, part, p), Open(cfg, whole, p), p.key.job)
    ensures p.key in Open(cfg, part, p).slots <==> p.key in Open(cfg, whole, p).slots
  {
    var job := p.key.job;
    PartSmaller(part, whole, job);
    assert p.key in part.slots <==> p.key in whole.slots;
    assert AtQuota(cfg, part.jobs, job) <==> AtQuota(cfg, whole.jobs, job);
    if Open(cfg, whole, p) != whole {
      CreateOnPart(part, whole, p.key, Fresh(p));
      IncrementOnPart(cfg, part.(slots := part.slots[p.key := Fresh(p)]), whole.(slots := whole.slots[p.key := Fresh(p)]), job);
    }
  }

  lemma ContributeOnPart(cfg: Config, part: Maps, whole: Maps, p: Packet)
    requires Shaped(part) && Shaped(whole) && PartOf(part, whole, p.key.job) && Bounded(p)
    requires p.key in part.slots && p.key in whole.slots
    ensures Contribute(cfg, part, p).0 == Contribute(cfg, whole, p).0
    ensures PartOf(Contribute(cfg, part, p).1, Contribute(cfg, whole, p).1, p.key.job)
  {
  }

  lemma OwnPacketSame(cfg: Config, part: Maps, whole: Maps, p: Packet)
    requires Shaped(part) && Shaped(whole) && PartOf(part, whole, p.key.job)
    requires |whole.slots| < cfg.maxSlots && |whole.jobs| < cfg.maxJobs
    ensures Step(cfg, part, p).0 == Step(cfg, whole, p).0
    ensures PartOf(Step(cfg, part, p).1, Step(cfg, whole, p).1, p.key.job)
  {
    if Bounded(p) {
      OpenOnPart(cfg, part, whole, p);
      var a, b := Open(cfg, part, p), Open(cfg, whole, p);
      if p.key in a.slots {
        ContributeOnPart(cfg, a, b, p);
      }
    }
  }

  lemma RunSnoc(cfg: Config, ps: seq<Packet>, p: Packet)
    ensures Run(cfg, ps + [p]) == Step(cfg, Run(cfg, ps), p).1
    ensures Verdicts(cfg, ps + [p]) == Verdicts(cfg, ps) + [Step(cfg, Run(cfg, ps), p).0]
  {
    assert (ps + [p])[..|ps|] == ps;
  }

  lemma NeverFullFront(cfg: Config, ps: seq<Packet>)
    requires ps != [] && NeverFull(cfg, ps)
    ensures var front := ps[..|ps| - 1];
            NeverFull(cfg, front) && |Run(cfg, front).slots| < cfg.maxSlots && |Run(cfg, front).jobs| < cfg.maxJobs
  {
    var front := ps[..|ps| - 1];
    forall k | 0 <= k <= |front|
      ensures |Run(cfg, front[..k]).slots| < cfg.maxSlots && |Run(cfg, front[..k]).jobs| < cfg.maxJobs
    {
      assert ps[..k] == front[..k];
    }
    assert front == front[..|front|];
  }

  /**
   Tenant isolation: while neither map fills up, a job's verdicts and emitted
   packets in any mixed stream are those of its own packets run alone.
   */
  lemma {:induction false} TenantIsolation(cfg: Config, ps: seq<Packet>, job: u32)
    requires NeverFull(cfg, ps)
    ensures VerdictsOf(cfg, ps, job) == Verdicts(cfg, Of(ps, job))
    ensures PartOf(Run(cfg, Of(ps, job)), Run(cfg, ps), job)
  {
    if ps != [] {
      var front, p := ps[..|ps| - 1], ps[|ps| - 1];
      NeverFullFront(cfg, ps);
      TenantIsolation(cfg, front, job);
      var part, whole := Run(cfg, Of(front, job)), Run(cfg, front);
      if p.key.job == job {
        OwnPacketSame(cfg, part, whole, p);
        RunSnoc(cfg, Of(front, job), p);
        assert Of(ps, job) == Of(front, job) + [p];
      } else {
        OthersDoNotTouch(cfg, part, whole, job, p);
        assert Of(ps, job) == Of(front, job);
      }
    }
  }
}
