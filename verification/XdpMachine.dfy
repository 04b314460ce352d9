/**
 The kernel program as it really runs: any number of CPUs, each with its own
 program counter and local variables, interleaving over the two shared maps.
 Creation, quota accounting and deletion happen outside the slot's lock.

 A pointer returned by a slot_map lookup stays usable after the entry is
 deleted, so instances live in a heap that only grows: a deleted instance is
 orphaned and never handed out again.
 */
module XdpMachine {
  import opened GradProto
  import opened SeenBitmap
  import X = XdpProgram

  /** The next step of one CPU. */
  datatype Pc =
    | Idle
    | Lookup | Admit | Create | Relookup
    | IncLookup | IncAdd | IncCreate | IncRetry
    | Lock | Check | Add | Count | WriteBack | Unlock
    | ReadConfig | Delete | DecLookup | DecAdd

  /**
   A CPU and its locals: the parsed packet, the payload buffer it may rewrite,
   the slot pointer, create_rc == 0, the loop index and is_complete.
   */
  datatype Cpu = Cpu(pc: Pc, p: Packet, buf: seq<i32>, ref: nat, won: bool, lane: nat, done: bool)

  /**
   A slot and its lock. The last five fields are history the program cannot see:
   its key, what it absorbed, who created it, who completed it, and whether it
   has left slot_map.
   */
  datatype Instance = Instance(
    slot: X.Slot, lock: Option<nat>,
    key: Key, contribs: seq<Packet>, creator: nat, closer: Option<nat>, removed: bool)

  /** What the program returned for one packet: the parser's drop, a later drop, or the slot it forwarded. */
  datatype Verdict = Malformed(p: Packet) | Drop(p: Packet) | Tx(p: Packet, ref: nat, values: seq<i32>)

  /** The shared maps, the CPUs, and the history of parsed arrivals, completions and verdicts. */
  datatype State = State(
    slotMap: map<Key, nat>, heap: seq<Instance>, jobs: map<u32, u32>, cpus: seq<Cpu>,
    arrived: seq<Packet>, completed: seq<nat>, log: seq<Verdict>)

  predicate HasSlot(pc: Pc) {
    !(pc.Idle? || pc.Lookup? || pc.Admit? || pc.Create? || pc.Relookup?)
  }

  /** Memory safety: every pointer a step may follow leads to an instance. */
  predicate PointersOk(s: State) {
    && (forall k :: k in s.slotMap ==> s.slotMap[k] < |s.heap|)
    && (forall r :: 0 <= r < |s.heap| ==> |s.heap[r].slot.sum| == MAX_CHUNK_LEN)
    && (forall c :: 0 <= c < |s.cpus| ==> CpuShape(s.cpus[c], |s.heap|))
  }

  predicate CpuShape(u: Cpu, heapSize: nat) {
    && (!u.pc.Idle? ==> Bounded(u.p) && |u.buf| == |u.p.values|)
    && (HasSlot(u.pc) ==> u.ref < heapSize)
  }

  /** CPU `c` is about to take this step. */
  predicate At(s: State, c: nat, pc: Pc) {
    c < |s.cpus| && PointersOk(s) && s.cpus[c].pc == pc && CpuShape(s.cpus[c], |s.heap|)
  }

  predicate Sound(s: State, r: State) {
    PointersOk(r) && |r.cpus| == |s.cpus|
  }

  /** In job_quota_increment. */
  predicate Incrementing(pc: Pc) {
    pc.IncLookup? || pc.IncAdd? || pc.IncCreate? || pc.IncRetry?
  }

  /** The packet has not been absorbed yet. */
  predicate Pending(pc: Pc) {
    pc.Lookup? || pc.Admit? || pc.Create? || pc.Relookup? || Incrementing(pc) || pc.Lock? || pc.Check?
  }

  /** It created a slot that job_quota_map does not count yet. */
  predicate Won(u: Cpu) {
    (u.pc.Relookup? && u.won) || Incrementing(u.pc)
  }

  /** What any step of CPU `c` leaves of the others, of its packet and of the history. */
  predicate Follows(s: State, r: State, c: nat)
    requires c < |s.cpus|
  {
    && |r.cpus| == |s.cpus| && r.cpus == s.cpus[c := r.cpus[c]] && r.cpus[c].p == s.cpus[c].p
    && r.arrived == s.arrived && MapFollows(s, r, c)
    && (forall i :: 0 <= i < |s.heap| ==> InstanceFollows(s.heap[i], r.heap[i], i, s.cpus[c], r.cpus[c]))
    && s.completed <= r.completed
    && (forall i :: 0 <= i < |s.heap| ==> r.heap[i].closer == s.heap[i].closer || i in r.completed)
    && (Pending(r.cpus[c].pc) ==> Pending(s.cpus[c].pc))
    && (Won(r.cpus[c]) ==> Won(s.cpus[c]) || |r.heap| > |s.heap|)
    && s.jobs.Keys <= r.jobs.Keys <= s.jobs.Keys + {s.cpus[c].p.key.job}
    && (r.cpus[c].pc.IncAdd? ==> s.cpus[c].p.key.job in s.jobs)
    && (r.cpus[c].pc.IncRetry? ==> s.cpus[c].pc.IncCreate?)
    && LogFollows(s.log, r.log, s.cpus[c].p)
  }

  /** Between deleting its instance and the verdict. */
  predicate Closed(u: Cpu) {
    u.pc.DecLookup? || u.pc.DecAdd?
  }

  /** Neither the maps nor what the CPU owes the quota counters change. */
  predicate LeavesMaps(s: State, r: State, c: nat)
    requires c < |s.cpus| && |r.cpus| == |s.cpus|
  {
    && r.slotMap == s.slotMap && r.jobs == s.jobs && Won(r.cpus[c]) == Won(s.cpus[c]) && Closed(r.cpus[c]) == Closed(s.cpus[c])
    && (r.cpus[c].pc.Create? ==> s.cpus[c].pc.Admit?)
  }

  predicate Plain(pc: Pc) {
    pc.Lookup? || pc.Admit? || pc.IncLookup? || pc.Lock? || pc.Check? || pc.Add? || pc.Count? || pc.WriteBack? || pc.Unlock? || pc.ReadConfig?
  }

  predicate LogFollows(log: seq<Verdict>, log': seq<Verdict>, p: Packet) {
    log' == log || (|log'| == |log| + 1 && log'[..|log|] == log && log'[|log|].p == p && !log'[|log|].Malformed?)
  }

  predicate InstanceFollows(i: Instance, i': Instance, r: nat, u: Cpu, u': Cpu) {
    && i'.key == i.key && i'.creator == i.creator && i'.slot.expected == i.slot.expected && i'.slot.chunkLen == i.slot.chunkLen
    && (i'.contribs == i.contribs || (u.pc.Check? && u'.pc.Add? && u.ref == r && i'.contribs == i.contribs + [u.p]))
  }

  /** slot_map changes only by a creation under a missing key, and by a delete. */
  predicate MapFollows(s: State, r: State, c: nat)
    requires c < |s.cpus|
  {
    var u := s.cpus[c];
    if |r.heap| == |s.heap| then r.slotMap == s.slotMap || (u.pc.Delete? && r.slotMap == s.slotMap - {u.p.key})
    else
      && |r.heap| == |s.heap| + 1 && u.pc.Create? && u.p.key !in s.slotMap
      && r.slotMap == s.slotMap[u.p.key := |s.heap|] && r.heap[|s.heap|] == FreshInstance(u.p, c)
  }

  /** An upper bound on the steps a CPU still has to take, spinning aside. */
  function StepsLeft(u: Cpu): nat {
    match u.pc
    case Idle => 0
    case DecAdd => 1
    case DecLookup => 2
    case Delete => 3
    case ReadConfig => 4
    case Unlock => 5
    case WriteBack => 6 + if u.lane < |u.buf| then |u.buf| - u.lane else 0
    case Count => 7 + |u.buf|
    case Add => 8 + |u.buf| + if u.lane < |u.p.values| then |u.p.values| - u.lane else 0
    case Check => 9 + |u.buf| + |u.p.values|
    case Lock => 10 + |u.buf| + |u.p.values|
    case IncAdd => 11 + |u.buf| + |u.p.values|
    case IncRetry => 12 + |u.buf| + |u.p.values|
    case IncCreate => 13 + |u.buf| + |u.p.values|
    case IncLookup => 14 + |u.buf| + |u.p.values|
    case Relookup => 15 + |u.buf| + |u.p.values|
    case Create => 16 + |u.buf| + |u.p.values|
    case Admit => 17 + |u.buf| + |u.p.values|
    case Lookup => 18 + |u.buf| + |u.p.values|
  }

  /** A CPU that has work to do and does not wait for a lock. */
  predicate Ready(s: State, c: nat) {
    c < |s.cpus| && !s.cpus[c].pc.Idle? && (s.cpus[c].pc.Lock? && s.cpus[c].ref < |s.heap| ==> s.heap[s.cpus[c].ref].lock.None?)
  }

  /** A step that does not spin brings its CPU closer to the verdict. */
  predicate Nearer(s: State, r: State, c: nat)
    requires c < |s.cpus| && c < |r.cpus|
  {
    Ready(s, c) ==> StepsLeft(r.cpus[c]) < StepsLeft(s.cpus[c])
  }

  function Put(s: State, c: nat, u: Cpu): State
    requires c < |s.cpus|
  {
    s.(cpus := s.cpus[c := u])
  }

  function PutSlot(s: State, r: nat, i: Instance): State
    requires r < |s.heap|
  {
    s.(heap := s.heap[r := i])
  }

  function Finish(s: State, c: nat, v: Verdict): State
    requires c < |s.cpus|
  {
    Put(s, c, s.cpus[c].(pc := Idle)).(log := s.log + [v])
  }

  function Next(s: State, c: nat, pc: Pc): State
    requires c < |s.cpus|
  {
    Put(s, c, s.cpus[c].(pc := pc))
  }

  // ------------------------------------------------------------------ arrival

  /** The parser drops malformed packets before they touch shared state; the others start at the slot_map lookup. */
  function Receive(s: State, c: nat, p: Packet): (r: State)
    requires c < |s.cpus| && PointersOk(s)
    ensures Sound(s, r)
  {
    if !s.cpus[c].pc.Idle? then s
    else if !Bounded(p) then s.(log := s.log + [Malformed(p)])
    else Put(s, c, Cpu(Lookup, p, p.values, 0, false, 0, false)).(arrived := s.arrived + [p])
  }

  // ------------------------------------------------- finding or creating a slot

  /** A step on the CPU's own locals, the counters and the log. */
  function OffSlot(s: State, c: nat, u': Cpu, jobs: map<u32, u32>, log: seq<Verdict>): (r: State)
    requires c < |s.cpus| && PointersOk(s) && CpuShape(u', |s.heap|) && u'.p == s.cpus[c].p
    requires (Pending(u'.pc) ==> Pending(s.cpus[c].pc)) && (Won(u') ==> Won(s.cpus[c]))
    requires s.jobs.Keys <= jobs.Keys <= s.jobs.Keys + {u'.p.key.job} && LogFollows(s.log, log, u'.p)
    requires (u'.pc.IncAdd? ==> u'.p.key.job in s.jobs) && (u'.pc.IncRetry? ==> s.cpus[c].pc.IncCreate?)
    ensures Sound(s, r) && Follows(s, r, c)
  {
    Put(s, c, u').(jobs := jobs, log := log)
  }

  function DoLookup(s: State, c: nat): (r: State)
    requires At(s, c, Lookup)
    ensures Sound(s, r) && Follows(s, r, c) && Nearer(s, r, c) && LeavesMaps(s, r, c)
  {
    var u := s.cpus[c];
    OffSlot(s, c, if u.p.key in s.slotMap then u.(pc := Lock, ref := s.slotMap[u.p.key]) else u.(pc := Admit), s.jobs, s.log)
  }

  function DoAdmit(cfg: X.Config, s: State, c: nat): (r: State)
    requires At(s, c, Admit)
    ensures Sound(s, r) && Follows(s, r, c) && Nearer(s, r, c) && LeavesMaps(s, r, c)
  {
    var u := s.cpus[c];
    if !ValidFanIn(u.p.numWorkers) || X.AtQuota(cfg, s.jobs, u.p.key.job) then OffSlot(s, c, u.(pc := Idle), s.jobs, s.log + [Drop(u.p)])
    else OffSlot(s, c, u.(pc := Create), s.jobs, s.log)
  }

  function FreshInstance(p: Packet, c: nat): Instance {
    Instance(X.Fresh(p), None, p.key, [], c, None, false)
  }

  /** A new instance under a key the map does not hold. */
  function Created(s: State, c: nat): (r: State)
    requires At(s, c, Create) && s.cpus[c].p.key !in s.slotMap
    ensures Sound(s, r) && Follows(s, r, c) && Nearer(s, r, c)
  {
    var u := s.cpus[c];
    Put(s, c, u.(pc := Relookup, won := true)).(
      slotMap := s.slotMap[u.p.key := |s.heap|], heap := s.heap + [FreshInstance(u.p, c)])
  }

  /** bpf_map_update_elem with BPF_NOEXIST. */
  function DoCreate(cfg: X.Config, s: State, c: nat): (r: State)
    requires At(s, c, Create)
    ensures Sound(s, r) && Follows(s, r, c) && Nearer(s, r, c)
  {
    var u := s.cpus[c];
    if u.p.key in s.slotMap || |s.slotMap| >= cfg.maxSlots then OffSlot(s, c, u.(pc := Relookup, won := false), s.jobs, s.log)
    else Created(s, c)
  }

  function DoRelookup(s: State, c: nat): (r: State)
    requires At(s, c, Relookup)
    ensures Sound(s, r) && Follows(s, r, c) && Nearer(s, r, c)
  {
    var u := s.cpus[c];
    if u.p.key !in s.slotMap then OffSlot(s, c, u.(pc := Idle), s.jobs, s.log + [Drop(u.p)])
    else OffSlot(s, c, u.(pc := if u.won then IncLookup else Lock, ref := s.slotMap[u.p.key]), s.jobs, s.log)
  }

  // ------------------------------------------------------- job_quota_increment

  function DoIncLookup(s: State, c: nat): (r: State)
    requires At(s, c, IncLookup)
    ensures Sound(s, r) && Follows(s, r, c) && Nearer(s, r, c) && LeavesMaps(s, r, c)
  {
    var u := s.cpus[c];
    OffSlot(s, c, u.(pc := if u.p.key.job in s.jobs then IncAdd else IncCreate), s.jobs, s.log)
  }

  /** The atomic add; job_quota_map entries are never deleted, so the entry is there. */
  function DoIncAdd(s: State, c: nat): (r: State)
    requires At(s, c, IncAdd)
    ensures Sound(s, r) && Follows(s, r, c) && Nearer(s, r, c)
  {
    var u := s.cpus[c];
    var j := u.p.key.job;
    OffSlot(s, c, u.(pc := Pc.Lock), if j in s.jobs then s.jobs[j := (s.jobs[j] + 1) % TWO32] else s.jobs, s.log)
  }

  function EntryCreated(s: State, c: nat): (r: State)
    requires At(s, c, IncCreate)
    ensures Sound(s, r) && Follows(s, r, c) && Nearer(s, r, c)
  {
    var u := s.cpus[c];
    OffSlot(s, c, u.(pc := Pc.Lock), s.jobs[u.p.key.job := 1], s.log)
  }

  function EntryLost(s: State, c: nat): (r: State)
    requires At(s, c, IncCreate)
    ensures Sound(s, r) && Follows(s, r, c) && Nearer(s, r, c)
  {
    OffSlot(s, c, s.cpus[c].(pc := IncRetry), s.jobs, s.log)
  }

  function DoIncCreate(cfg: X.Config, s: State, c: nat): (r: State)
    requires At(s, c, IncCreate)
    ensures Sound(s, r) && Follows(s, r, c) && Nearer(s, r, c)
  {
    if s.cpus[c].p.key.job in s.jobs || |s.jobs| >= cfg.maxJobs then EntryLost(s, c) else EntryCreated(s, c)
  }

  function DoIncRetry(s: State, c: nat): (r: State)
    requires At(s, c, IncRetry)
    ensures Sound(s, r) && Follows(s, r, c) && Nearer(s, r, c)
  {
    var u := s.cpus[c];
    OffSlot(s, c, u.(pc := if u.p.key.job in s.jobs then IncAdd else Pc.Lock), s.jobs, s.log)
  }

  // --------------------------------------------------------- the locked region

  /** A step on the CPU's own instance, `i'`, and its locals, `u'`, before any deletion. */
  predicate SlotStep(s: State, c: nat, i': Instance, u': Cpu) {
    && c < |s.cpus| && s.cpus[c].ref < |s.heap| && CpuShape(u', |s.heap|) && u'.p == s.cpus[c].p
    && |i'.slot.sum| == MAX_CHUNK_LEN && InstanceFollows(s.heap[s.cpus[c].ref], i', s.cpus[c].ref, s.cpus[c], u')
    && (Pending(u'.pc) ==> Pending(s.cpus[c].pc))
    && !Won(u') && !Won(s.cpus[c]) && !Closed(u') && !Closed(s.cpus[c]) && !u'.pc.Create?
  }

  function OnSlot(s: State, c: nat, i': Instance, u': Cpu): (r: State)
    requires PointersOk(s) && SlotStep(s, c, i', u') && i'.closer == s.heap[s.cpus[c].ref].closer
    ensures Sound(s, r) && Follows(s, r, c) && LeavesMaps(s, r, c)
  {
    Put(PutSlot(s, s.cpus[c].ref, i'), c, u')
  }

  /** The step that completes the instance, logged. */
  function Completing(s: State, c: nat, i': Instance, u': Cpu): (r: State)
    requires PointersOk(s) && SlotStep(s, c, i', u')
    ensures Sound(s, r) && Follows(s, r, c) && LeavesMaps(s, r, c)
  {
    var log := s.completed + [s.cpus[c].ref];
    assert s.cpus[c].ref in log;
    Put(PutSlot(s, s.cpus[c].ref, i'), c, u').(completed := log)
  }

  /** A held lock leaves the CPU spinning. */
  function DoLock(s: State, c: nat): (r: State)
    requires At(s, c, Pc.Lock)
    ensures Sound(s, r) && Follows(s, r, c) && Nearer(s, r, c) && LeavesMaps(s, r, c)
  {
    var u := s.cpus[c];
    var i := s.heap[u.ref];
    if i.lock.Some? then s
    else OnSlot(s, c, i.(lock := Some(c)), u.(pc := Check, done := false))
  }

  predicate Acceptable(i: Instance, p: Packet)
    requires p.worker < MAX_WORKERS
  {
    i.slot.chunkLen == |p.values| && !Test(i.slot.seen, p.worker)
  }

  function Accepting(i: Instance, p: Packet): Instance
    requires p.worker < MAX_WORKERS
  {
    i.(slot := i.slot.(seen := Mark(i.slot.seen, p.worker)), contribs := i.contribs + [p])
  }

  function Rejected(s: State, c: nat): (r: State)
    requires At(s, c, Check)
    ensures Sound(s, r) && Follows(s, r, c) && Nearer(s, r, c) && LeavesMaps(s, r, c)
  {
    OffSlot(s, c, s.cpus[c].(pc := Unlock), s.jobs, s.log)
  }

  function Accepted(s: State, c: nat): (r: State)
    requires At(s, c, Check)
    ensures Sound(s, r) && Follows(s, r, c) && Nearer(s, r, c) && LeavesMaps(s, r, c)
  {
    var u := s.cpus[c];
    OnSlot(s, c, Accepting(s.heap[u.ref], u.p), u.(pc := Add, lane := 0))
  }

  /** chunk_len and the seen bit; an accepted packet's worker is marked here. */
  function DoCheck(s: State, c: nat): (r: State)
    requires At(s, c, Check)
    ensures Sound(s, r) && Follows(s, r, c) && Nearer(s, r, c) && LeavesMaps(s, r, c)
  {
    if Acceptable(s.heap[s.cpus[c].ref], s.cpus[c].p) then Accepted(s, c) else Rejected(s, c)
  }

  function AddingLane(i: Instance, p: Packet, lane: nat): Instance
    requires lane < |p.values| && lane < |i.slot.sum|
  {
    i.(slot := i.slot.(sum := i.slot.sum[lane := Wrap(i.slot.sum[lane] as int + p.values[lane])]))
  }

  /** One round of the accumulate loop. */
  function DoAdd(s: State, c: nat): (r: State)
    requires At(s, c, Add)
    ensures Sound(s, r) && Follows(s, r, c) && Nearer(s, r, c) && LeavesMaps(s, r, c)
  {
    var u := s.cpus[c];
    var i := s.heap[u.ref];
    if u.lane >= |u.p.values| then OffSlot(s, c, u.(pc := Count), s.jobs, s.log)
    else OnSlot(s, c, AddingLane(i, u.p, u.lane), u.(lane := u.lane + 1))
  }

  function Counting(i: Instance): Instance {
    i.(slot := i.slot.(received := (i.slot.received + 1) % TWO16))
  }

  /** contributions_received++ and the completion test. */
  function DoCount(s: State, c: nat): (r: State)
    requires At(s, c, Count)
    ensures Sound(s, r) && Follows(s, r, c) && Nearer(s, r, c) && LeavesMaps(s, r, c)
  {
    var u := s.cpus[c];
    var i := s.heap[u.ref];
    var i' := Counting(i);
    if i'.slot.received == i'.slot.expected then
      Completing(s, c, i'.(closer := Some(c)), u.(pc := WriteBack, lane := 0, done := true))
    else OnSlot(s, c, i', u.(pc := Unlock))
  }

  /** One round of the write-back loop: a lane of the sum replaces a lane of the packet. */
  function DoWriteBack(s: State, c: nat): (r: State)
    requires At(s, c, WriteBack)
    ensures Sound(s, r) && Follows(s, r, c) && Nearer(s, r, c) && LeavesMaps(s, r, c)
  {
    var u := s.cpus[c];
    var i := s.heap[u.ref];
    if u.lane >= i.slot.chunkLen || u.lane >= |u.buf| then OffSlot(s, c, u.(pc := Unlock), s.jobs, s.log)
    else OffSlot(s, c, u.(buf := u.buf[u.lane := i.slot.sum[u.lane]], lane := u.lane + 1), s.jobs, s.log)
  }

  function Dropped(s: State, c: nat): (r: State)
    requires At(s, c, Unlock)
    ensures Sound(s, r) && Follows(s, r, c) && Nearer(s, r, c) && LeavesMaps(s, r, c)
  {
    var u := s.cpus[c];
    OnSlot(s, c, s.heap[u.ref].(lock := None), u.(pc := Idle)).(log := s.log + [Drop(u.p)])
  }

  function DoUnlock(s: State, c: nat): (r: State)
    requires At(s, c, Unlock)
    ensures Sound(s, r) && Follows(s, r, c) && Nearer(s, r, c) && LeavesMaps(s, r, c)
  {
    var u := s.cpus[c];
    if u.done then OnSlot(s, c, s.heap[u.ref].(lock := None), u.(pc := ReadConfig)) else Dropped(s, c)
  }

  // ------------------------------------------------------------------ teardown

  function DoReadConfig(s: State, c: nat): (r: State)
    requires At(s, c, ReadConfig)
    ensures Sound(s, r) && Follows(s, r, c) && Nearer(s, r, c) && LeavesMaps(s, r, c)
  {
    OffSlot(s, c, s.cpus[c].(pc := Delete), s.jobs, s.log)
  }

  /** Delete by key: whatever instance the map holds for it is orphaned. */
  function DoDelete(s: State, c: nat): (r: State)
    requires At(s, c, Delete)
    ensures Sound(s, r) && Follows(s, r, c) && Nearer(s, r, c)
  {
    var key := s.cpus[c].p.key;
    var s1 := if key in s.slotMap then PutSlot(s, s.slotMap[key], s.heap[s.slotMap[key]].(removed := true)) else s;
    Next(s1, c, DecLookup).(slotMap := s.slotMap - {key})
  }

  function Outcome(cfg: X.Config, u: Cpu): Verdict {
    if cfg.populated then Tx(u.p, u.ref, u.buf) else Drop(u.p)
  }

  function DoDecLookup(cfg: X.Config, s: State, c: nat): (r: State)
    requires At(s, c, DecLookup)
    ensures Sound(s, r) && Follows(s, r, c) && Nearer(s, r, c)
  {
    var u := s.cpus[c];
    if u.p.key.job in s.jobs && s.jobs[u.p.key.job] > 0 then OffSlot(s, c, u.(pc := DecAdd), s.jobs, s.log)
    else OffSlot(s, c, u.(pc := Idle), s.jobs, s.log + [Outcome(cfg, u)])
  }

  /** The atomic add of -1: it wraps if the counter is 0 by now. */
  function DoDecAdd(cfg: X.Config, s: State, c: nat): (r: State)
    requires At(s, c, DecAdd)
    ensures Sound(s, r) && Follows(s, r, c) && Nearer(s, r, c)
  {
    var u := s.cpus[c];
    var j := u.p.key.job;
    var jobs := if j in s.jobs then s.jobs[j := (s.jobs[j] - 1) % TWO32] else s.jobs;
    OffSlot(s, c, u.(pc := Idle), jobs, s.log + [Outcome(cfg, u)])
  }

  // ---------------------------------------------------------------------- runs

  function DoNothing(s: State, c: nat): (r: State)
    requires At(s, c, Idle)
    ensures Sound(s, r) && Follows(s, r, c) && Nearer(s, r, c)
  {
    s
  }

  predicate BeforeLock(pc: Pc) {
    pc.Lookup? || pc.Admit? || pc.Create? || pc.Relookup? || Incrementing(pc)
  }

  function ExecBeforeLock(cfg: X.Config, s: State, c: nat): (r: State)
    requires c < |s.cpus| && At(s, c, s.cpus[c].pc) && BeforeLock(s.cpus[c].pc)
    ensures Sound(s, r) && Follows(s, r, c) && Nearer(s, r, c) && (Plain(s.cpus[c].pc) ==> LeavesMaps(s, r, c))
  {
    match s.cpus[c].pc
    case Lookup => DoLookup(s, c)
    case Admit => DoAdmit(cfg, s, c)
    case Create => DoCreate(cfg, s, c)
    case Relookup => DoRelookup(s, c)
    case IncLookup => DoIncLookup(s, c)
    case IncAdd => DoIncAdd(s, c)
    case IncCreate => DoIncCreate(cfg, s, c)
    case IncRetry => DoIncRetry(s, c)
  }

  function ExecFromLock(cfg: X.Config, s: State, c: nat): (r: State)
    requires c < |s.cpus| && At(s, c, s.cpus[c].pc) && !BeforeLock(s.cpus[c].pc)
    ensures Sound(s, r) && Follows(s, r, c) && Nearer(s, r, c) && (Plain(s.cpus[c].pc) ==> LeavesMaps(s, r, c))
  {
    match s.cpus[c].pc
    case Idle => DoNothing(s, c)
    case Lock => DoLock(s, c)
    case Check => DoCheck(s, c)
    case Add => DoAdd(s, c)
    case Count => DoCount(s, c)
    case WriteBack => DoWriteBack(s, c)
    case Unlock => DoUnlock(s, c)
    case ReadConfig => DoReadConfig(s, c)
    case Delete => DoDelete(s, c)
    case DecLookup => DoDecLookup(cfg, s, c)
    case DecAdd => DoDecAdd(cfg, s, c)
  }

  /** One step of CPU `c`. */
  function Exec(cfg: X.Config, s: State, c: nat): (r: State)
    requires c < |s.cpus| && PointersOk(s)
    ensures Sound(s, r) && Follows(s, r, c) && Nearer(s, r, c) && (Plain(s.cpus[c].pc) ==> LeavesMaps(s, r, c))
  {
    assert CpuShape(s.cpus[c], |s.heap|);
    if BeforeLock(s.cpus[c].pc) then ExecBeforeLock(cfg, s, c) else ExecFromLock(cfg, s, c)
  }

  /** The scheduler's choices: hand a packet to a CPU, or let a CPU take a step. */
  datatype Action = Arrive(c: nat, p: Packet) | Go(c: nat)

  function Apply(cfg: X.Config, s: State, a: Action): (r: State)
    requires PointersOk(s)
    ensures Sound(s, r)
  {
    if a.c >= |s.cpus| then s
    else if a.Arrive? then Receive(s, a.c, a.p)
    else Exec(cfg, s, a.c)
  }

  function Boot(cpus: nat): State {
    var nobody := Packet(Key(0, 0, 0), 0, 0, []);
    State(map[], [], map[], seq(cpus, _ => Cpu(Idle, nobody, [], 0, false, 0, false)), [], [], [])
  }

  /** Any interleaving, as the sequence of the scheduler's choices. */
  function Run(cfg: X.Config, cpus: nat, actions: seq<Action>): (r: State)
    ensures PointersOk(r) && |r.cpus| == cpus
  {
    if actions == [] then Boot(cpus)
    else
      var s := Run(cfg, cpus, actions[..|actions| - 1]);
      Apply(cfg, s, actions[|actions| - 1])
  }

  predicate Quiescent(s: State) {
    forall c :: 0 <= c < |s.cpus| ==> s.cpus[c].pc.Idle?
  }
}
