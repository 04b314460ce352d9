/**
 The userspace aggregator: an open-addressed slot table whose cells are freed
 on completion or expiry, an insert-only job table with the quota counters, the
 packet path, and the TTL reaper.

 The functions say what each operation does to the tables; the class does it in
 place, loop by loop, and is proved to do exactly that.
 */
module Aggregator {
  import opened GradProto
  import opened Probing

  /** One slot_t. `contribs` is history: the packets summed since the slot was claimed. */
  datatype Cell = Cell(
    inUse: bool,
    key: Key,
    expected: int,
    received: int,
    sum: seq<i32>,
    chunkLen: int,
    seen: seq<bool>,
    lastTouched: int,
    contribs: seq<Packet>)

  /** One job_entry_t. */
  datatype JobEntry = JobEntry(inUse: bool, job: u32, concurrent: u32, admitted: u32, rejected: u32)

  /** A packet sent downstream, with the packets it stands for. */
  datatype Emission = Emission(key: Key, values: seq<i32>, expected: int, contribs: seq<Packet>)

  /** Both hash functions are arbitrary; quota 0 means unlimited. */
  datatype Config = Config(slotHash: Key -> nat, jobHash: u32 -> nat, quota: u32)

  /** The two tables, and the history of what was accepted, emitted, reaped and freed. */
  datatype State = State(
    cells: seq<Cell>,
    jobs: seq<JobEntry>,
    accepted: seq<Packet>,
    emitted: seq<Emission>,
    reaped: seq<Cell>,
    freed: seq<u32>)

  datatype Outcome =
    | Malformed
    | NotAdmitted
    | WrongLength
    | Duplicate
    | Absorbed
    | Sent(emission: Emission)

  const NO_CELL := Cell(false, Key(0, 0, 0), 0, 0, ZeroSum(), 0, NoneSeen(), 0, [])
  const NO_JOB := JobEntry(false, 0, 0, 0, 0)

  /** memset, then in_use and the key fields. */
  function Claimed(key: Key): Cell {
    Cell(true, key, 0, 0, ZeroSum(), 0, NoneSeen(), 0, [])
  }

  function SlotView(cells: seq<Cell>): (v: seq<Option<Key>>)
    ensures |v| == |cells|
  {
    seq(|cells|, i requires 0 <= i < |cells| => if cells[i].inUse then Some(cells[i].key) else None)
  }

  function JobView(jobs: seq<JobEntry>): (v: seq<Option<u32>>)
    ensures |v| == |jobs|
  {
    seq(|jobs|, i requires 0 <= i < |jobs| => if jobs[i].inUse then Some(jobs[i].job) else None)
  }

  predicate Shaped(cells: seq<Cell>, jobs: seq<JobEntry>) {
    && 0 < |cells| && 0 < |jobs|
    && forall i :: 0 <= i < |cells| ==> |cells[i].seen| == MAX_WORKERS && |cells[i].sum| == MAX_CHUNK_LEN
  }

  // ----------------------------------------------------------- the job table

  function FindOrCreateJob(cfg: Config, jobs: seq<JobEntry>, job: u32): (r: (Option<nat>, seq<JobEntry>))
    requires 0 < |jobs|
    ensures |r.1| == |jobs| && (r.0.Some? ==> r.0.value < |jobs|)
  {
    var d := Find(JobView(jobs), cfg.jobHash(job), job);
    if d == |jobs| then (None, jobs)
    else
      var i := At(cfg.jobHash(job), d, |jobs|);
      (Some(i), if jobs[i].inUse then jobs else jobs[i := JobEntry(true, job, 0, 0, 0)])
  }

  function Bumped(e: JobEntry): JobEntry {
    e.(concurrent := (e.concurrent + 1) % TWO32, admitted := (e.admitted + 1) % TWO32)
  }

  /** The job-table half of claiming a slot: false when the job is at its quota. */
  function AdmitJob(cfg: Config, jobs: seq<JobEntry>, job: u32): (r: (bool, seq<JobEntry>))
    requires 0 < |jobs|
    ensures |r.1| == |jobs|
  {
    var (at, jobs1) := FindOrCreateJob(cfg, jobs, job);
    if at.None? then (true, jobs1)
    else
      var e := jobs1[at.value];
      if cfg.quota > 0 && e.concurrent >= cfg.quota
      then (false, jobs1[at.value := e.(rejected := (e.rejected + 1) % TWO32)])
      else (true, jobs1[at.value := Bumped(e)])
  }

  /** The job-table half of freeing a slot. */
  function ReleaseJob(cfg: Config, jobs: seq<JobEntry>, job: u32): (r: seq<JobEntry>)
    requires 0 < |jobs|
    ensures |r| == |jobs|
  {
    var (at, jobs1) := FindOrCreateJob(cfg, jobs, job);
    if at.Some? && jobs1[at.value].concurrent > 0
    then jobs1[at.value := jobs1[at.value].(concurrent := jobs1[at.value].concurrent - 1)]
    else jobs1
  }

  // ---------------------------------------------------------- the slot table

  function FindOrCreateSlot(cfg: Config, st: State, key: Key): (r: (Option<nat>, State))
    requires Shaped(st.cells, st.jobs)
    ensures Shaped(r.1.cells, r.1.jobs)
    ensures |r.1.cells| == |st.cells| && |r.1.jobs| == |st.jobs|
    ensures r.0.Some? ==> r.0.value < |st.cells|
  {
    var d := Find(SlotView(st.cells), cfg.slotHash(key), key);
    if d == |st.cells| then (None, st)
    else
      var i := At(cfg.slotHash(key), d, |st.cells|);
      if st.cells[i].inUse then (Some(i), st)
      else
        var (ok, jobs) := AdmitJob(cfg, st.jobs, key.job);
        if ok then (Some(i), st.(cells := st.cells[i := Claimed(key)], jobs := jobs))
        else (None, st.(jobs := jobs))
  }

  /** free_slot: the counter goes down and the cell is marked free; its contents stay. */
  function FreeSlot(cfg: Config, st: State, i: nat): (r: State)
    requires Shaped(st.cells, st.jobs) && i < |st.cells|
    ensures Shaped(r.cells, r.jobs)
    ensures |r.cells| == |st.cells| && |r.jobs| == |st.jobs|
  {
    st.(cells := st.cells[i := st.cells[i].(inUse := false)],
        jobs := ReleaseJob(cfg, st.jobs, st.cells[i].key.job),
        freed := st.freed + [st.cells[i].key.job])
  }

  // ---------------------------------------------------------- the packet path

  predicate Admissible(p: Packet) {
    Bounded(p) && ValidFanIn(p.numWorkers)
  }

  /** The first packet of a slot fixes its chunk length and fan-in. */
  function Latch(c: Cell, p: Packet): Cell {
    if c.received == 0 then c.(chunkLen := |p.values|, expected := p.numWorkers) else c
  }

  function Accepting(c: Cell, p: Packet, now: int): Cell
    requires p.worker < |c.seen|
  {
    c.(seen := c.seen[p.worker := true],
       lastTouched := now,
       sum := Accumulate(c.sum, p),
       received := (c.received + 1) % TWO16,
       contribs := c.contribs + [p])
  }

  function EmissionOf(c: Cell): Emission
    requires 0 <= c.chunkLen <= |c.sum|
  {
    Emission(c.key, c.sum[..c.chunkLen], c.expected, c.contribs)
  }

  /** What the loop body does with the slot that find_or_create_slot returned. */
  function Contribute(cfg: Config, st: State, i: nat, p: Packet, now: int): (r: (Outcome, State))
    requires Shaped(st.cells, st.jobs) && i < |st.cells| && Bounded(p)
    ensures Shaped(r.1.cells, r.1.jobs)
    ensures |r.1.cells| == |st.cells| && |r.1.jobs| == |st.jobs|
  {
    var c := Latch(st.cells[i], p);
    var latched := st.(cells := st.cells[i := c]);
    if c.chunkLen != |p.values| then (WrongLength, st)
    else if c.seen[p.worker] then (Duplicate, latched)
    else
      var c' := Accepting(c, p, now);
      var st' := st.(cells := st.cells[i := c'], accepted := st.accepted + [p]);
      if c'.received < c'.expected then (Absorbed, st')
      else
        var e := EmissionOf(c');
        (Sent(e), FreeSlot(cfg, st'.(emitted := st'.emitted + [e]), i))
  }

  /** One received packet, processed at time `now`. */
  function Process(cfg: Config, st: State, p: Packet, now: int): (r: (Outcome, State))
    requires Shaped(st.cells, st.jobs)
    ensures Shaped(r.1.cells, r.1.jobs)
    ensures |r.1.cells| == |st.cells| && |r.1.jobs| == |st.jobs|
  {
    if !Admissible(p) then (Malformed, st)
    else
      var (at, st1) := FindOrCreateSlot(cfg, st, p.key);
      if at.None? then (NotAdmitted, st1) else Contribute(cfg, st1, at.value, p, now)
  }

  // ---------------------------------------------------------------- the reaper

  predicate Expired(c: Cell, now: int, ttl: int) {
    c.inUse && now - c.lastTouched >= ttl
  }

  /** The sweep over cells `i`, `i + 1`, ... */
  function Reap(cfg: Config, st: State, now: int, ttl: int, i: nat := 0): (r: State)
    requires Shaped(st.cells, st.jobs) && i <= |st.cells|
    ensures Shaped(r.cells, r.jobs)
    ensures |r.cells| == |st.cells| && |r.jobs| == |st.jobs|
    decreases |st.cells| - i
  {
    if i == |st.cells| then st
    else if Expired(st.cells[i], now, ttl)
    then Reap(cfg, FreeSlot(cfg, st.(reaped := st.reaped + [st.cells[i]]), i), now, ttl, i + 1)
    else Reap(cfg, st, now, ttl, i + 1)
  }

  // --------------------------------------------------------------- whole runs

  /** What drives the main loop: packets and sweeps, each with its clock reading. */
  datatype Event = Arrival(p: Packet, now: int) | Sweep(now: int, ttl: int)

  function Handle(cfg: Config, st: State, e: Event): (r: State)
    requires Shaped(st.cells, st.jobs)
    ensures Shaped(r.cells, r.jobs)
    ensures |r.cells| == |st.cells| && |r.jobs| == |st.jobs|
  {
    match e
    case Arrival(p, now) => Process(cfg, st, p, now).1
    case Sweep(now, ttl) => Reap(cfg, st, now, ttl)
  }

  function Empty(slots: nat, jobs: nat): (r: State)
    requires 0 < slots && 0 < jobs
    ensures Shaped(r.cells, r.jobs) && |r.cells| == slots && |r.jobs| == jobs
  {
    State(seq(slots, i => NO_CELL), seq(jobs, i => NO_JOB), [], [], [], [])
  }

  function Run(cfg: Config, slots: nat, jobs: nat, events: seq<Event>): (r: State)
    requires 0 < slots && 0 < jobs
    ensures Shaped(r.cells, r.jobs) && |r.cells| == slots && |r.jobs| == jobs
  {
    if events == [] then Empty(slots, jobs)
    else Handle(cfg, Run(cfg, slots, jobs, events[..|events| - 1]), events[|events| - 1])
  }

  // ------------------------------------------------------------ the real tables

  class Daemon {
    const cfg: Config
    const slots: array<Cell>
    const jobs: array<JobEntry>
    ghost var accepted: seq<Packet>
    ghost var emitted: seq<Emission>
    ghost var reaped: seq<Cell>
    ghost var freed: seq<u32>

    ghost predicate Valid()
      reads this, slots, jobs
    {
      slots as object != jobs && Shaped(slots[..], jobs[..])
    }

    ghost function Current(): State
      reads this, slots, jobs
    {
      State(slots[..], jobs[..], accepted, emitted, reaped, freed)
    }

    constructor (cfg: Config, slotCapacity: nat, jobCapacity: nat)
      requires 0 < slotCapacity && 0 < jobCapacity
      ensures Valid() && fresh(slots) && fresh(jobs) && this.cfg == cfg
      ensures Current() == Empty(slotCapacity, jobCapacity)
    {
      this.cfg := cfg;
      slots := new Cell[slotCapacity](i => NO_CELL);
      jobs := new JobEntry[jobCapacity](i => NO_JOB);
      accepted, emitted, reaped, freed := [], [], [], [];
    }

    method FindJob(job: u32) returns (at: Option<nat>)
      requires Valid()
      modifies jobs
      ensures Valid()
      ensures (at, jobs[..]) == FindOrCreateJob(cfg, old(jobs[..]), job)
    {
      var n := jobs.Length;
      ghost var v := JobView(jobs[..]);
      var probe := 0;
      while probe < n
        invariant 0 <= probe <= n
        invariant jobs[..] == old(jobs[..])
        invariant Find(v, cfg.jobHash(job), job) == Find(v, cfg.jobHash(job), job, probe)
      {
        var i := At(cfg.jobHash(job), probe, n);
        assert v[i] == if jobs[i].inUse then Some(jobs[i].job) else None;
        if !jobs[i].inUse {
          jobs[i] := JobEntry(true, job, 0, 0, 0);
          return Some(i);
        }
        if jobs[i].job == job {
          return Some(i);
        }
        probe := probe + 1;
      }
      at := None;
    }

    method Admit(job: u32) returns (ok: bool)
      requires Valid()
      modifies jobs
      ensures Valid()
      ensures (ok, jobs[..]) == AdmitJob(cfg, old(jobs[..]), job)
    {
      var at := FindJob(job);
      ok := true;
      if at.Some? {
        var e := jobs[at.value];
        if cfg.quota > 0 && e.concurrent >= cfg.quota {
          jobs[at.value] := e.(rejected := (e.rejected + 1) % TWO32);
          ok := false;
        } else {
          jobs[at.value] := e.(concurrent := (e.concurrent + 1) % TWO32, admitted := (e.admitted + 1) % TWO32);
        }
      }
    }

    method FindSlot(key: Key) returns (at: Option<nat>)
      requires Valid()
      modifies slots, jobs
      ensures Valid()
      ensures (at, Current()) == FindOrCreateSlot(cfg, old(Current()), key)
    {
      var n := slots.Length;
      ghost var v := SlotView(slots[..]);
      var probe := 0;
      while probe < n
        invariant 0 <= probe <= n
        invariant slots[..] == old(slots[..]) && jobs[..] == old(jobs[..])
        invariant Find(v, cfg.slotHash(key), key) == Find(v, cfg.slotHash(key), key, probe)
      {
        var i := At(cfg.slotHash(key), probe, n);
        assert v[i] == if slots[i].inUse then Some(slots[i].key) else None;
        if !slots[i].inUse {
          var ok := Admit(key.job);
          if !ok {
            return None;
          }
          slots[i] := Claimed(key);
          return Some(i);
        }
        if slots[i].key == key {
          return Some(i);
        }
        probe := probe + 1;
      }
      at := None;
    }

    method Free(i: nat)
      requires Valid() && i < slots.Length
      modifies slots, jobs, this`freed
      ensures Valid()
      ensures Current() == FreeSlot(cfg, old(Current()), i)
    {
      var at := FindJob(slots[i].key.job);
      if at.Some? && jobs[at.value].concurrent > 0 {
        jobs[at.value] := jobs[at.value].(concurrent := jobs[at.value].concurrent - 1);
      }
      freed := freed + [slots[i].key.job];
      slots[i] := slots[i].(inUse := false);
    }

    /** The receive loop's body from the slot on. */
    method ContributeTo(i: nat, p: Packet, now: int) returns (outcome: Outcome)
      requires Valid() && i < slots.Length && Bounded(p)
      modifies slots, jobs, this`accepted, this`emitted, this`freed
      ensures Valid()
      ensures (outcome, Current()) == Contribute(cfg, old(Current()), i, p, now)
    {
      var slot := slots[i];
      if slot.received == 0 {
        slot := slot.(chunkLen := |p.values|, expected := p.numWorkers);
      } else if slot.chunkLen != |p.values| {
        return WrongLength;
      }
      if slot.seen[p.worker] {
        slots[i] := slot;
        return Duplicate;
      }
      var sum := AccumulateLanes(slot.sum, p);
      slot := slot.(seen := slot.seen[p.worker := true], lastTouched := now, sum := sum,
                    received := (slot.received + 1) % TWO16, contribs := slot.contribs + [p]);
      slots[i] := slot;
      accepted := accepted + [p];
      if slot.received < slot.expected {
        return Absorbed;
      }
      var e := Emission(slot.key, slot.sum[..slot.chunkLen], slot.expected, slot.contribs);
      emitted := emitted + [e];
      Free(i);
      outcome := Sent(e);
    }

    /** The body of the receive loop. */
    method Receive(p: Packet, now: int) returns (outcome: Outcome)
      requires Valid()
      modifies slots, jobs, this`accepted, this`emitted, this`freed
      ensures Valid()
      ensures (outcome, Current()) == Process(cfg, old(Current()), p, now)
    {
      if |p.values| > MAX_CHUNK_LEN || p.worker >= MAX_WORKERS || p.numWorkers == 0 || p.numWorkers > MAX_WORKERS {
        return Malformed;
      }
      var at := FindSlot(p.key);
      if at.None? {
        return NotAdmitted;
      }
      outcome := ContributeTo(at.value, p, now);
    }

    /** reap_expired_slots. */
    method ReapExpired(now: int, ttl: int)
      requires Valid()
      modifies slots, jobs, this`reaped, this`freed
      ensures Valid()
      ensures Current() == Reap(cfg, old(Current()), now, ttl)
    {
      var i := 0;
      while i < slots.Length
        invariant 0 <= i <= slots.Length
        invariant Valid() && accepted == old(accepted) && emitted == old(emitted)
        invariant Reap(cfg, old(Current()), now, ttl) == Reap(cfg, Current(), now, ttl, i)
      {
        if slots[i].inUse && now - slots[i].lastTouched >= ttl {
          reaped := reaped + [slots[i]];
          Free(i);
        }
        i := i + 1;
      }
    }
  }
}
