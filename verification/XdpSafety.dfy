/**
 The safety invariant of the concurrent kernel program, and why every step of
 every CPU keeps it: who holds a lock, who completed an instance, what the lanes,
 the counter and the seen bits hold meanwhile, and what slot_map maps.
 */
module XdpSafety {
  import opened GradProto
  import opened SeenBitmap
  import opened XdpMachine
  import X = XdpProgram

  // --------------------------------------------------------------- where a CPU is

  predicate Critical(pc: Pc) {
    pc.Check? || pc.Add? || pc.Count? || pc.WriteBack? || pc.Unlock?
  }

  /** Accepted, but not yet counted. */
  predicate Adding(pc: Pc) {
    pc.Add? || pc.Count?
  }

  /** Between completing an instance and deleting it. */
  predicate Closing(u: Cpu) {
    u.pc.WriteBack? || (u.pc.Unlock? && u.done) || u.pc.ReadConfig? || u.pc.Delete?
  }

  // ------------------------------------------------------------ what a slot holds

  /** The lanes below `upto` include the last packet, the others do not yet. */
  ghost predicate PartialSum(sum: seq<i32>, ps: seq<Packet>, upto: nat) {
    && |sum| == MAX_CHUNK_LEN && ps != []
    && (forall k :: 0 <= k < upto && k < |sum| ==> sum[k] == Wrap(LaneSum(ps, k)))
    && (forall k :: upto <= k < |sum| ==> sum[k] == Wrap(LaneSum(ps[..|ps| - 1], k)))
  }

  ghost predicate SeenOk(seen: Bitmap, ps: seq<Packet>) {
    forall w :: 0 <= w < MAX_WORKERS ==> (Test(seen, w) <==> Contributed(ps, w))
  }

  /** The contributions belong to this slot and come from distinct workers. */
  ghost predicate ContribsOk(i: Instance) {
    && ValidFanIn(i.slot.expected) && 0 <= i.slot.chunkLen <= MAX_CHUNK_LEN
    && DistinctWorkers(i.contribs) && SeenOk(i.slot.seen, i.contribs)
    && forall k :: 0 <= k < |i.contribs| ==>
         Bounded(i.contribs[k]) && i.contribs[k].key == i.key && |i.contribs[k].values| == i.slot.chunkLen
  }

  /** Sums and counter, when `adding` gives the lane the lock holder has reached. */
  ghost predicate SumsOk(i: Instance, adding: Option<nat>) {
    && (i.closer.Some? <==> i.slot.received >= i.slot.expected)
    && match adding
       case None => HoldsSum(i.slot.sum, i.contribs) && i.slot.received == |i.contribs|
       case Some(lane) => PartialSum(i.slot.sum, i.contribs, lane) && i.slot.received == |i.contribs| - 1
  }

  ghost function AddingAt(cpus: seq<Cpu>, lock: Option<nat>): Option<nat> {
    if lock.Some? && lock.value < |cpus| && Adding(cpus[lock.value].pc) then Some(cpus[lock.value].lane) else None
  }

  /** The lock's holder and the completing CPU are where they should be. */
  ghost predicate OwnersOk(cpus: seq<Cpu>, i: Instance, r: nat) {
    && (i.lock.Some? ==> i.lock.value < |cpus| && Critical(cpus[i.lock.value].pc) && cpus[i.lock.value].ref == r)
    && (i.closer.Some? && !i.removed ==> i.closer.value < |cpus| && Closing(cpus[i.closer.value]) && cpus[i.closer.value].ref == r)
    && (i.removed ==> i.closer.Some?)
  }

  ghost predicate Mapped(s: State, key: Key, r: nat) {
    key in s.slotMap && s.slotMap[key] == r
  }

  ghost predicate InstanceOk(s: State, r: nat)
    requires r < |s.heap|
  {
    var i := s.heap[r];
    && ContribsOk(i) && SumsOk(i, AddingAt(s.cpus, i.lock)) && OwnersOk(s.cpus, i, r)
    && (!i.removed <==> Mapped(s, i.key, r))
  }

  // ------------------------------------------------------------- what a CPU knows

  /** The lanes below `upto` of the rewritten payload are the sums of the first `expected` contributions. */
  ghost predicate Written(i: Instance, buf: seq<i32>, upto: int) {
    && |i.contribs| >= i.slot.expected > 0 && |buf| == i.slot.chunkLen
    && forall k :: 0 <= k < upto && k < |buf| ==> buf[k] == Wrap(LaneSum(i.contribs[..i.slot.expected], k))
  }

  /** Packet `p` completed instance `i`, whose contents `buf` now carries. */
  ghost predicate Forwardable(i: Instance, p: Packet, buf: seq<i32>, upto: int) {
    i.key == p.key && Written(i, buf, upto) && i.contribs[i.slot.expected - 1] == p
  }

  ghost predicate PointsTo(i: Instance, c: nat, u: Cpu) {
    && i.key == u.p.key
    && (Critical(u.pc) ==> i.lock == Some(c))
    && (Adding(u.pc) ==> i.contribs != [] && i.contribs[|i.contribs| - 1] == u.p && u.lane <= |u.p.values|)
    && (u.pc.Count? ==> u.lane == |u.p.values|)
    && (u.pc.WriteBack? ==> |i.contribs| == i.slot.expected)
    && (Closing(u) ==> i.closer == Some(c) && !i.removed)
    && (Closed(u) ==> i.closer == Some(c) && i.removed)
    && (Closing(u) || Closed(u) ==> u.done && Forwardable(i, u.p, u.buf, if u.pc.WriteBack? then u.lane else |u.buf|))
  }

  ghost predicate CpuOk(s: State, c: nat)
    requires c < |s.cpus| && PointersOk(s)
  {
    var u := s.cpus[c];
    && (u.pc.Create? ==> ValidFanIn(u.p.numWorkers))
    && (HasSlot(u.pc) ==> CpuShape(u, |s.heap|) && PointsTo(s.heap[u.ref], c, u))
    && (u.pc.Check? || u.pc.Add? || u.pc.Count? ==> !u.done)
  }

  ghost predicate SlotMapOk(s: State) {
    forall k :: k in s.slotMap ==> s.slotMap[k] < |s.heap| && s.heap[s.slotMap[k]].key == k
  }

  // ------------------------------------------------------------------- the logs

  ghost predicate SentBy(log: seq<Verdict>, r: nat) {
    exists k :: 0 <= k < |log| && log[k].Tx? && log[k].ref == r
  }

  ghost predicate VerdictOk(heap: seq<Instance>, v: Verdict) {
    v.Tx? ==> v.ref < |heap| && heap[v.ref].removed && Forwardable(heap[v.ref], v.p, v.values, |v.values|)
  }

  ghost predicate LogOk(s: State) {
    && (forall k :: 0 <= k < |s.log| ==> VerdictOk(s.heap, s.log[k]))
    && (forall k, l :: 0 <= k < l < |s.log| && s.log[k].Tx? && s.log[l].Tx? ==> s.log[k].ref != s.log[l].ref)
    && (forall c :: 0 <= c < |s.cpus| && Closed(s.cpus[c]) ==> !SentBy(s.log, s.cpus[c].ref))
  }

  ghost predicate CompletionsOk(s: State) {
    && (forall k :: 0 <= k < |s.completed| ==> s.completed[k] < |s.heap| && s.heap[s.completed[k]].closer.Some?)
    && (forall k, l :: 0 <= k < l < |s.completed| ==> s.completed[k] != s.completed[l])
  }

  ghost predicate Safe(s: State) {
    && PointersOk(s) && SlotMapOk(s) && LogOk(s) && CompletionsOk(s)
    && (forall c :: 0 <= c < |s.cpus| ==> CpuOk(s, c))
    && (forall r :: 0 <= r < |s.heap| ==> InstanceOk(s, r))
  }

  // -------------------------------------------------- steps that touch no instance

  /** CPU `c` moves among places where it owns nothing. */
  ghost predicate Owns(u: Cpu) {
    Critical(u.pc) || Closing(u) || Closed(u)
  }

  lemma QuietStep(s: State, s': State, c: nat)
    requires Safe(s) && c < |s.cpus| && PointersOk(s')
    requires s'.heap == s.heap && s'.slotMap == s.slotMap && s'.completed == s.completed
    requires |s'.cpus| == |s.cpus| && s'.cpus == s.cpus[c := s'.cpus[c]]
    requires s'.log == s.log || exists v: Verdict :: !v.Tx? && s'.log == s.log + [v]
    requires !Owns(s.cpus[c]) && !Owns(s'.cpus[c]) && CpuOk(s', c)
    ensures Safe(s')
  {
    forall d | 0 <= d < |s.cpus| ensures CpuOk(s', d) {
      assert CpuOk(s, d);
    }
    forall r | 0 <= r < |s.heap| ensures InstanceOk(s', r) {
      assert InstanceOk(s, r);
    }
    assert LogOk(s');
  }

  // ---------------------------------------------- steps that change one instance

  /** What a step of CPU `c` may do to an instance, as seen by the other CPUs. */
  ghost predicate ChangedBy(c: nat, i: Instance, i': Instance) {
    && i'.key == i.key && i'.slot.expected == i.slot.expected && i'.slot.chunkLen == i.slot.chunkLen
    && (i'.contribs == i.contribs || (i.lock == Some(c) && exists p :: i'.contribs == i.contribs + [p]))
    && (i'.lock == i.lock || i.lock.None? || i.lock == Some(c))
    && (i'.closer == i.closer || (i.closer.None? && i.lock == Some(c)))
    && (i'.removed == i.removed || i.closer == Some(c))
  }

  lemma OtherCpu(s: State, s': State, c: nat, r: nat, d: nat)
    requires Safe(s) && c < |s.cpus| && r < |s.heap| && PointersOk(s')
    requires |s'.heap| == |s.heap| && s'.heap == s.heap[r := s'.heap[r]] && ChangedBy(c, s.heap[r], s'.heap[r])
    requires |s'.cpus| == |s.cpus| && s'.cpus == s.cpus[c := s'.cpus[c]]
    requires d < |s.cpus| && d != c
    ensures CpuOk(s', d)
  {
    assert CpuOk(s, d);
    var i, i' := s.heap[r], s'.heap[r];
    if i'.contribs != i.contribs && |i.contribs| >= i.slot.expected > 0 {
      assert i'.contribs[..i.slot.expected] == i.contribs[..i.slot.expected];
    }
  }

  lemma OwningStep(s: State, s': State, c: nat, r: nat)
    requires Safe(s) && c < |s.cpus| && r < |s.heap| && PointersOk(s')
    requires HasSlot(s.cpus[c].pc) && s.cpus[c].ref == r
    requires |s'.heap| == |s.heap| && s'.heap == s.heap[r := s'.heap[r]] && ChangedBy(c, s.heap[r], s'.heap[r])
    requires |s'.cpus| == |s.cpus| && s'.cpus == s.cpus[c := s'.cpus[c]]
    requires s'.slotMap == s.slotMap || (s'.slotMap == s.slotMap - {s.heap[r].key} && Mapped(s, s.heap[r].key, r))
    requires CpuOk(s', c) && InstanceOk(s', r) && LogOk(s') && CompletionsOk(s')
    ensures Safe(s')
  {
    forall d | 0 <= d < |s.cpus| ensures CpuOk(s', d) {
      if d != c {
        OtherCpu(s, s', c, r, d);
      }
    }
    forall r' | 0 <= r' < |s.heap| ensures InstanceOk(s', r') {
      assert InstanceOk(s, r');
    }
  }

  /** The logs stand when nothing is logged and no CPU becomes Closed. */
  lemma SameLogs(s: State, s': State, c: nat, r: nat)
    requires Safe(s) && c < |s.cpus| && r < |s.heap|
    requires |s'.heap| == |s.heap| && s'.heap == s.heap[r := s'.heap[r]] && ChangedBy(c, s.heap[r], s'.heap[r])
    requires |s'.cpus| == |s.cpus| && s'.cpus == s.cpus[c := s'.cpus[c]]
    requires s'.completed == s.completed
    requires s'.log == s.log || exists v: Verdict :: !v.Tx? && s'.log == s.log + [v]
    requires Closed(s'.cpus[c]) ==> !SentBy(s.log, s'.cpus[c].ref)
    requires s.heap[r].removed ==> s'.heap[r].removed
    ensures LogOk(s') && CompletionsOk(s')
  {
    var i, i' := s.heap[r], s'.heap[r];
    if i'.contribs != i.contribs && |i.contribs| >= i.slot.expected > 0 {
      assert i'.contribs[..i.slot.expected] == i.contribs[..i.slot.expected];
    }
    forall k | 0 <= k < |s.log| ensures VerdictOk(s'.heap, s.log[k]) {
      assert VerdictOk(s.heap, s.log[k]);
    }
    forall d | 0 <= d < |s'.cpus| && Closed(s'.cpus[d]) ensures !SentBy(s'.log, s'.cpus[d].ref) {
      if d != c {
        assert Closed(s.cpus[d]);
      }
    }
  }

  /** Both: what is left to show of a step that logs no completion and forwards nothing. */
  lemma UnloggedStep(s: State, s': State, c: nat, r: nat)
    requires Safe(s) && c < |s.cpus| && HasSlot(s.cpus[c].pc) && s.cpus[c].ref == r && r < |s.heap|
    requires Sound(s, s') && |s'.heap| == |s.heap|
    requires s' == s.(heap := s.heap[r := s'.heap[r]], cpus := s.cpus[c := s'.cpus[c]], slotMap := s'.slotMap, log := s'.log)
    requires s'.slotMap == s.slotMap || (s'.slotMap == s.slotMap - {s.heap[r].key} && Mapped(s, s.heap[r].key, r))
    requires s'.log == s.log || exists v: Verdict :: !v.Tx? && s'.log == s.log + [v]
    requires ChangedBy(c, s.heap[r], s'.heap[r])
    requires CpuOk(s', c) && InstanceOk(s', r)
    requires Closed(s'.cpus[c]) ==> !s.heap[r].removed && s'.cpus[c].ref == r
    requires s.heap[r].removed ==> s'.heap[r].removed
    ensures Safe(s')
  {
    if Closed(s'.cpus[c]) {
      UnsentUntilRemoved(s, r);
    }
    SameLogs(s, s', c, r);
    OwningStep(s, s', c, r);
  }

  lemma UnsentUntilRemoved(s: State, r: nat)
    requires LogOk(s) && r < |s.heap| && !s.heap[r].removed
    ensures !SentBy(s.log, r)
  {
    assert forall k :: 0 <= k < |s.log| ==> VerdictOk(s.heap, s.log[k]);
  }

  // ------------------------------------------------------------ the locked region

  /** What the lock holder leaves behind: the instance and its own locals fit together. */
  ghost predicate HolderOk(i: Instance, c: nat, u: Cpu) {
    && ContribsOk(i) && SumsOk(i, if Adding(u.pc) then Some(u.lane) else None)
    && Critical(u.pc) && i.lock == Some(c) && PointsTo(i, c, u)
    && Bounded(u.p) && |u.buf| == |u.p.values|
    && (u.pc.Check? || u.pc.Add? || u.pc.Count? ==> !u.done)
    && (i.closer == Some(c) && !i.removed ==> Closing(u))
    && (i.removed ==> i.closer.Some?)
  }

  /** A step of a CPU that holds, or takes, the lock of its instance. */
  lemma LockedStep(s: State, c: nat, i': Instance, u': Cpu)
    requires Safe(s) && c < |s.cpus| && HasSlot(s.cpus[c].pc) && s.cpus[c].ref < |s.heap|
    requires var u := s.cpus[c];
             var i := s.heap[u.ref];
             u'.ref == u.ref && !Closed(u) && (i.lock.None? || i.lock == Some(c)) && ChangedBy(c, i, i') && i'.removed == i.removed
             && (i'.closer == i.closer || i'.closer == Some(c))
    requires HolderOk(i', c, u')
    ensures Safe(Put(PutSlot(s, u'.ref, i'), c, u'))
  {
    var s', r := Put(PutSlot(s, u'.ref, i'), c, u'), u'.ref;
    assert InstanceOk(s, r);
    UnloggedStep(s, s', c, r);
  }

  /** What the invariant says of the instance a lock holder is working on. */
  lemma Holder(s: State, c: nat)
    requires Safe(s) && c < |s.cpus| && Critical(s.cpus[c].pc)
    ensures s.cpus[c].ref < |s.heap| && HolderOk(s.heap[s.cpus[c].ref], c, s.cpus[c])
  {
    assert CpuOk(s, c) && CpuShape(s.cpus[c], |s.heap|);
    assert InstanceOk(s, s.cpus[c].ref);
  }

  lemma LockKeeps(s: State, c: nat)
    requires Safe(s) && At(s, c, Lock)
    ensures Safe(DoLock(s, c))
  {
    var u := s.cpus[c];
    var i := s.heap[u.ref];
    assert CpuOk(s, c) && InstanceOk(s, u.ref);
    if i.lock.None? {
      LockedStep(s, c, i.(lock := Some(c)), u.(pc := Check, done := false));
    }
  }

  lemma AcceptedContribs(i: Instance, p: Packet)
    requires ContribsOk(i) && Bounded(p) && p.key == i.key && Acceptable(i, p)
    ensures ContribsOk(Accepting(i, p))
  {
    forall w | 0 <= w < MAX_WORKERS
      ensures Test(Mark(i.slot.seen, p.worker), w) <==> Contributed(i.contribs + [p], w)
    {
      MarkAddsOne(i.slot.seen, p.worker, w);
      ContributedSnoc(i.contribs, p, w);
    }
  }

  lemma NothingAddedYet(sum: seq<i32>, ps: seq<Packet>, p: Packet)
    requires HoldsSum(sum, ps)
    ensures PartialSum(sum, ps + [p], 0)
  {
    assert (ps + [p])[..|ps|] == ps;
  }

  lemma Accepts(i: Instance, c: nat, u: Cpu)
    requires HolderOk(i, c, u) && u.pc.Check? && Acceptable(i, u.p)
    ensures ChangedBy(c, i, Accepting(i, u.p)) && HolderOk(Accepting(i, u.p), c, u.(pc := Add, lane := 0))
  {
    AcceptedContribs(i, u.p);
    NothingAddedYet(i.slot.sum, i.contribs, u.p);
  }

  lemma CheckKeeps(s: State, c: nat)
    requires Safe(s) && At(s, c, Check)
    ensures Safe(DoCheck(s, c))
  {
    var u := s.cpus[c];
    var i := s.heap[u.ref];
    Holder(s, c);
    if Acceptable(i, u.p) {
      Accepts(i, c, u);
      LockedStep(s, c, Accepting(i, u.p), u.(pc := Add, lane := 0));
    } else {
      LockedStep(s, c, i, u.(pc := Unlock));
      SameHeap(s, u.ref);
    }
  }

  lemma SameHeap(s: State, r: nat)
    requires r < |s.heap|
    ensures PutSlot(s, r, s.heap[r]) == s
  {
    assert s.heap[r := s.heap[r]] == s.heap;
  }

  lemma AddsLane(i: Instance, c: nat, u: Cpu)
    requires HolderOk(i, c, u) && u.pc.Add? && u.lane < |u.p.values|
    ensures ChangedBy(c, i, AddingLane(i, u.p, u.lane)) && HolderOk(AddingLane(i, u.p, u.lane), c, u.(lane := u.lane + 1))
  {
    WrapAdd(LaneSum(i.contribs[..|i.contribs| - 1], u.lane), u.p.values[u.lane]);
  }

  lemma LaneKeeps(s: State, c: nat)
    requires Safe(s) && At(s, c, Add) && s.cpus[c].lane < |s.cpus[c].p.values|
    ensures var u := s.cpus[c];
            Safe(Put(PutSlot(s, u.ref, AddingLane(s.heap[u.ref], u.p, u.lane)), c, u.(lane := u.lane + 1)))
  {
    var u := s.cpus[c];
    Holder(s, c);
    AddsLane(s.heap[u.ref], c, u);
    LockedStep(s, c, AddingLane(s.heap[u.ref], u.p, u.lane), u.(lane := u.lane + 1));
  }

  lemma LanesDoneKeeps(s: State, c: nat)
    requires Safe(s) && At(s, c, Add) && s.cpus[c].lane >= |s.cpus[c].p.values|
    ensures Safe(Put(s, c, s.cpus[c].(pc := Count)))
  {
    var u := s.cpus[c];
    Holder(s, c);
    LockedStep(s, c, s.heap[u.ref], u.(pc := Count));
    SameHeap(s, u.ref);
  }

  lemma AddKeeps(s: State, c: nat)
    requires Safe(s) && At(s, c, Add)
    ensures Safe(DoAdd(s, c))
  {
    if s.cpus[c].lane < |s.cpus[c].p.values| {
      LaneKeeps(s, c);
    } else {
      LanesDoneKeeps(s, c);
      assert DoAdd(s, c) == Put(s, c, s.cpus[c].(pc := Count));
    }
  }

  /** The bitmap has 256 bits, so the 16-bit counter cannot wrap. */
  lemma AtMost256(i: Instance)
    requires ContribsOk(i)
    ensures |i.contribs| <= MAX_WORKERS
  {
    WorkersBelow(i.contribs, MAX_WORKERS);
  }

  lemma AllLanesAdded(sum: seq<i32>, ps: seq<Packet>)
    requires ps != [] && PartialSum(sum, ps, |ps[|ps| - 1].values|)
    ensures HoldsSum(sum, ps)
  {
    forall k | 0 <= k < |sum| ensures sum[k] == Wrap(LaneSum(ps, k)) {
      if k >= |ps[|ps| - 1].values| {
        assert LaneSum(ps, k) == LaneSum(ps[..|ps| - 1], k);
      }
    }
  }

  /** Only the contribution that makes the count reach `expected` completes, and nobody completed before. */
  lemma Counts(i: Instance, c: nat, u: Cpu)
    requires HolderOk(i, c, u) && u.pc.Count?
    ensures Counting(i).slot.received == |i.contribs|
    ensures var i' := Counting(i);
            if |i.contribs| == i.slot.expected then
              && i.closer.None? && ChangedBy(c, i, i'.(closer := Some(c)))
              && HolderOk(i'.(closer := Some(c)), c, u.(pc := WriteBack, lane := 0, done := true))
            else ChangedBy(c, i, i') && HolderOk(i', c, u.(pc := Unlock))
  {
    AtMost256(i);
    AllLanesAdded(i.slot.sum, i.contribs);
  }

  lemma CountKeeps(s: State, c: nat)
    requires Safe(s) && At(s, c, Count)
    ensures Safe(DoCount(s, c))
  {
    var u := s.cpus[c];
    var i := s.heap[u.ref];
    Holder(s, c);
    Counts(i, c, u);
    if |i.contribs| == i.slot.expected {
      LockedStep(s, c, Counting(i).(closer := Some(c)), u.(pc := WriteBack, lane := 0, done := true));
      CompletedOnce(s, Put(PutSlot(s, u.ref, Counting(i).(closer := Some(c))), c, u.(pc := WriteBack, lane := 0, done := true)), u.ref);
    } else {
      LockedStep(s, c, Counting(i), u.(pc := Unlock));
    }
  }

  /** A first completion of an instance can be logged. */
  lemma CompletedOnce(s: State, s': State, r: nat)
    requires CompletionsOk(s) && r < |s.heap| && s.heap[r].closer.None?
    requires Safe(s') && s'.completed == s.completed && r < |s'.heap| && s'.heap[r].closer.Some?
    ensures Safe(s'.(completed := s.completed + [r]))
  {
    var s'' := s'.(completed := s.completed + [r]);
    assert forall d :: 0 <= d < |s'.cpus| ==> CpuOk(s', d) && CpuOk(s'', d);
    assert forall q :: 0 <= q < |s'.heap| ==> InstanceOk(s', q) && InstanceOk(s'', q);
  }

  lemma WritesLane(i: Instance, c: nat, u: Cpu)
    requires HolderOk(i, c, u) && u.pc.WriteBack?
    ensures |u.buf| == i.slot.chunkLen <= |i.slot.sum|
    ensures HolderOk(i, c, if u.lane < |u.buf| then u.(buf := u.buf[u.lane := i.slot.sum[u.lane]], lane := u.lane + 1)
                           else u.(pc := Unlock))
  {
    assert i.contribs[..i.slot.expected] == i.contribs;
  }

  lemma WriteBackKeeps(s: State, c: nat)
    requires Safe(s) && At(s, c, WriteBack)
    ensures Safe(DoWriteBack(s, c))
  {
    var u := s.cpus[c];
    var i := s.heap[u.ref];
    Holder(s, c);
    WritesLane(i, c, u);
    SameHeap(s, u.ref);
    LockedStep(s, c, i, if u.lane < |u.buf| then u.(buf := u.buf[u.lane := i.slot.sum[u.lane]], lane := u.lane + 1)
                        else u.(pc := Unlock));
  }

  /** Giving the lock up: the packet is done with, or its CPU goes on to the teardown. */
  lemma Unlocked(s: State, c: nat, pc: Pc, log: seq<Verdict>)
    requires Safe(s) && At(s, c, Unlock) && s.cpus[c].ref < |s.heap|
    requires if s.cpus[c].done then pc.ReadConfig? && log == s.log else pc.Idle? && log == s.log + [Drop(s.cpus[c].p)]
    ensures var u := s.cpus[c];
            Safe(Next(PutSlot(s, u.ref, s.heap[u.ref].(lock := None)), c, pc).(log := log))
  {
    var u := s.cpus[c];
    var s' := Next(PutSlot(s, u.ref, s.heap[u.ref].(lock := None)), c, pc).(log := log);
    assert CpuOk(s, c) && InstanceOk(s, u.ref);
    FreedInstanceOk(s, s', c);
    UnloggedStep(s, s', c, u.ref);
  }

  lemma FreedInstanceOk(s: State, s': State, c: nat)
    requires Safe(s) && At(s, c, Unlock) && s.cpus[c].ref < |s.heap| && CpuOk(s, c) && InstanceOk(s, s.cpus[c].ref)
    requires |s'.heap| == |s.heap| && s'.heap[s.cpus[c].ref] == s.heap[s.cpus[c].ref].(lock := None) && s'.slotMap == s.slotMap
    requires |s'.cpus| == |s.cpus| && s'.cpus == s.cpus[c := s'.cpus[c]] && s'.cpus[c].ref == s.cpus[c].ref
    requires if s.cpus[c].done then s'.cpus[c].pc.ReadConfig? else s'.cpus[c].pc.Idle?
    ensures InstanceOk(s', s.cpus[c].ref)
  {
  }

  lemma UnlockKeeps(s: State, c: nat)
    requires Safe(s) && At(s, c, Unlock)
    ensures Safe(DoUnlock(s, c))
  {
    Unlocked(s, c, DoUnlock(s, c).cpus[c].pc, DoUnlock(s, c).log);
  }

  // -------------------------------------------------------------------- teardown

  lemma ReadConfigKeeps(s: State, c: nat)
    requires Safe(s) && At(s, c, ReadConfig)
    ensures Safe(Next(s, c, Delete))
  {
    var s', r := Next(s, c, Delete), s.cpus[c].ref;
    assert CpuOk(s, c) && InstanceOk(s, r);
    assert s'.heap == s.heap[r := s.heap[r]];
    UnloggedStep(s, s', c, r);
  }

  /** The delete by key finds the instance this CPU completed, and no other. */
  lemma DeletesItsOwn(s: State, c: nat)
    requires Safe(s) && At(s, c, Delete)
    ensures Mapped(s, s.cpus[c].p.key, s.cpus[c].ref)
    ensures s.heap[s.cpus[c].ref].closer == Some(c) && !s.heap[s.cpus[c].ref].removed
  {
    assert CpuOk(s, c) && InstanceOk(s, s.cpus[c].ref);
  }

  lemma DeleteKeeps(s: State, c: nat)
    requires Safe(s) && At(s, c, Delete)
    ensures Safe(DoDelete(s, c))
  {
    var s', r := DoDelete(s, c), s.cpus[c].ref;
    DeletesItsOwn(s, c);
    assert CpuOk(s, c) && InstanceOk(s, r);
    UnloggedStep(s, s', c, r);
  }

  /** No other CPU is about to forward the same instance. */
  lemma SendsOnce(cfg: X.Config, s: State, c: nat)
    requires Safe(s) && c < |s.cpus| && Closed(s.cpus[c])
    ensures LogOk(Finish(s, c, Outcome(cfg, s.cpus[c])))
  {
    var u := s.cpus[c];
    var s' := Finish(s, c, Outcome(cfg, u));
    assert CpuOk(s, c);
    assert VerdictOk(s.heap, Outcome(cfg, u));
    forall d | 0 <= d < |s.cpus| && Closed(s'.cpus[d]) ensures !SentBy(s'.log, s'.cpus[d].ref) {
      assert CpuOk(s, d);
      assert s.cpus[d].ref != u.ref;
    }
  }

  /** A CPU that has deleted its instance owns nothing that others look at. */
  lemma RemovedStep(s: State, s': State, c: nat)
    requires Safe(s) && c < |s.cpus| && Closed(s.cpus[c]) && PointersOk(s')
    requires |s'.cpus| == |s.cpus| && s'.cpus == s.cpus[c := s'.cpus[c]] && s' == s.(cpus := s'.cpus, log := s'.log)
    requires s'.cpus[c].pc.DecAdd? || s'.cpus[c].pc.Idle?
    requires CpuOk(s', c) && LogOk(s')
    ensures Safe(s')
  {
    forall d | 0 <= d < |s.cpus| ensures CpuOk(s', d) {
      assert CpuOk(s, d);
    }
    forall r | 0 <= r < |s.heap| ensures InstanceOk(s', r) {
      assert InstanceOk(s, r);
    }
  }

  lemma FinishKeeps(cfg: X.Config, s: State, c: nat)
    requires Safe(s) && c < |s.cpus| && Closed(s.cpus[c])
    ensures Safe(Finish(s, c, Outcome(cfg, s.cpus[c])))
  {
    SendsOnce(cfg, s, c);
    RemovedStep(s, Finish(s, c, Outcome(cfg, s.cpus[c])), c);
  }

  /** The quota counters play no part in safety, only in admission. */
  lemma JobsDoNotMatter(s: State, jobs: map<u32, u32>)
    requires Safe(s)
    ensures Safe(s.(jobs := jobs))
  {
    var s' := s.(jobs := jobs);
    assert forall d :: 0 <= d < |s.cpus| ==> CpuOk(s, d) && CpuOk(s', d);
    assert forall r :: 0 <= r < |s.heap| ==> InstanceOk(s, r) && InstanceOk(s', r);
  }

  // --------------------------------------------------- everything before the lock

  lemma ReceiveKeeps(s: State, c: nat, p: Packet)
    requires Safe(s) && c < |s.cpus|
    ensures Safe(Receive(s, c, p))
  {
    var s' := Receive(s, c, p);
    if s.cpus[c].pc.Idle? {
      assert s.cpus == s.cpus[c := s.cpus[c]];
      QuietStep(s, s', c);
    }
  }

  lemma LookupKeeps(s: State, c: nat)
    requires Safe(s) && At(s, c, Lookup)
    ensures Safe(DoLookup(s, c))
  {
    QuietStep(s, DoLookup(s, c), c);
  }

  lemma AdmitKeeps(cfg: X.Config, s: State, c: nat)
    requires Safe(s) && At(s, c, Admit)
    ensures Safe(DoAdmit(cfg, s, c))
  {
    QuietStep(s, DoAdmit(cfg, s, c), c);
  }

  lemma FreshOk(p: Packet, c: nat)
    requires Bounded(p) && ValidFanIn(p.numWorkers)
    ensures ContribsOk(FreshInstance(p, c)) && SumsOk(FreshInstance(p, c), None)
  {
    forall w | 0 <= w < MAX_WORKERS ensures !Test(NoneMarked(), w) {
      NoneHasNone(w);
    }
  }

  lemma CreatedLogs(s: State, c: nat)
    requires Safe(s) && At(s, c, Create) && s.cpus[c].p.key !in s.slotMap
    ensures LogOk(Created(s, c)) && CompletionsOk(Created(s, c))
  {
    forall k | 0 <= k < |s.log| ensures VerdictOk(Created(s, c).heap, s.log[k]) {
      assert VerdictOk(s.heap, s.log[k]);
    }
  }

  lemma OldInstanceStays(s: State, c: nat, r: nat)
    requires Safe(s) && At(s, c, Create) && s.cpus[c].p.key !in s.slotMap && r < |s.heap|
    ensures InstanceOk(Created(s, c), r)
  {
    assert InstanceOk(s, r);
  }

  lemma NewInstanceOk(s: State, c: nat)
    requires At(s, c, Create) && s.cpus[c].p.key !in s.slotMap && CpuOk(s, c)
    ensures InstanceOk(Created(s, c), |s.heap|)
  {
    FreshOk(s.cpus[c].p, c);
  }

  lemma CreationKeeps(s: State, c: nat)
    requires Safe(s) && At(s, c, Create) && s.cpus[c].p.key !in s.slotMap
    ensures Safe(Created(s, c))
  {
    var s' := Created(s, c);
    CreatedLogs(s, c);
    forall d | 0 <= d < |s.cpus| ensures CpuOk(s', d) {
      assert CpuOk(s, d) && CpuShape(s.cpus[d], |s.heap|);
    }
    forall r | 0 <= r < |s'.heap| ensures InstanceOk(s', r) {
      if r < |s.heap| {
        OldInstanceStays(s, c, r);
      } else {
        NewInstanceOk(s, c);
      }
    }
  }

  lemma LostCreationKeeps(s: State, c: nat)
    requires Safe(s) && At(s, c, Create)
    ensures Safe(Put(s, c, s.cpus[c].(pc := Relookup, won := false)))
  {
    QuietStep(s, Put(s, c, s.cpus[c].(pc := Relookup, won := false)), c);
  }

  lemma CreateKeeps(cfg: X.Config, s: State, c: nat)
    requires Safe(s) && At(s, c, Create)
    ensures Safe(DoCreate(cfg, s, c))
  {
    if s.cpus[c].p.key in s.slotMap || |s.slotMap| >= cfg.maxSlots {
      LostCreationKeeps(s, c);
      assert DoCreate(cfg, s, c) == Put(s, c, s.cpus[c].(pc := Relookup, won := false));
    } else {
      CreationKeeps(s, c);
    }
  }

  lemma RelookupKeeps(s: State, c: nat)
    requires Safe(s) && At(s, c, Relookup)
    ensures Safe(DoRelookup(s, c))
  {
    QuietStep(s, DoRelookup(s, c), c);
  }

  lemma IncrementLeavesCpuOk(s: State, c: nat, pc: Pc, jobs: map<u32, u32>)
    requires Safe(s) && c < |s.cpus| && Incrementing(s.cpus[c].pc)
    requires Incrementing(pc) || pc.Lock?
    ensures PointersOk(Next(s, c, pc).(jobs := jobs)) && CpuOk(Next(s, c, pc).(jobs := jobs), c)
  {
    assert CpuOk(s, c) && CpuShape(s.cpus[c], |s.heap|);
  }

  lemma IncrementMoves(s: State, c: nat, pc: Pc, jobs: map<u32, u32>)
    requires Safe(s) && c < |s.cpus| && Incrementing(s.cpus[c].pc)
    requires Incrementing(pc) || pc.Lock?
    ensures Safe(Next(s, c, pc).(jobs := jobs))
  {
    IncrementLeavesCpuOk(s, c, pc, jobs);
    QuietStep(s, Next(s, c, pc).(jobs := jobs), c);
  }

  lemma IncLookupKeeps(s: State, c: nat)
    requires Safe(s) && At(s, c, IncLookup)
    ensures Safe(DoIncLookup(s, c))
  {
    IncrementMoves(s, c, DoIncLookup(s, c).cpus[c].pc, s.jobs);
  }

  lemma IncAddKeeps(s: State, c: nat)
    requires Safe(s) && At(s, c, IncAdd)
    ensures Safe(DoIncAdd(s, c))
  {
    IncrementMoves(s, c, Lock, DoIncAdd(s, c).jobs);
  }

  lemma IncCreateKeeps(cfg: X.Config, s: State, c: nat)
    requires Safe(s) && At(s, c, IncCreate)
    ensures Safe(DoIncCreate(cfg, s, c))
  {
    IncrementMoves(s, c, DoIncCreate(cfg, s, c).cpus[c].pc, DoIncCreate(cfg, s, c).jobs);
  }

  lemma IncRetryKeeps(s: State, c: nat)
    requires Safe(s) && At(s, c, IncRetry)
    ensures Safe(DoIncRetry(s, c))
  {
    IncrementMoves(s, c, DoIncRetry(s, c).cpus[c].pc, s.jobs);
  }

  lemma DecLookupKeeps(cfg: X.Config, s: State, c: nat)
    requires Safe(s) && At(s, c, DecLookup)
    ensures Safe(DoDecLookup(cfg, s, c))
  {
    if DoDecLookup(cfg, s, c).cpus[c].pc.DecAdd? {
      ToDecAddKeeps(s, c);
      assert DoDecLookup(cfg, s, c) == Next(s, c, DecAdd);
    } else {
      FinishKeeps(cfg, s, c);
      assert DoDecLookup(cfg, s, c) == Finish(s, c, Outcome(cfg, s.cpus[c]));
    }
  }

  lemma DecAddKeeps(cfg: X.Config, s: State, c: nat)
    requires Safe(s) && At(s, c, DecAdd)
    ensures Safe(DoDecAdd(cfg, s, c))
  {
    FinishKeeps(cfg, s, c);
    JobsDoNotMatter(Finish(s, c, Outcome(cfg, s.cpus[c])), DoDecAdd(cfg, s, c).jobs);
  }

  lemma ToDecAddKeeps(s: State, c: nat)
    requires Safe(s) && At(s, c, DecLookup)
    ensures Safe(Next(s, c, DecAdd))
  {
    assert CpuOk(s, c) && Closed(s.cpus[c]);
    RemovedStep(s, Next(s, c, DecAdd), c);
  }

  // ------------------------------------------------------------------- every step

  lemma BeforeLockKeepsSafe(cfg: X.Config, s: State, c: nat)
    requires Safe(s) && c < |s.cpus| && At(s, c, s.cpus[c].pc) && BeforeLock(s.cpus[c].pc)
    ensures Safe(ExecBeforeLock(cfg, s, c))
  {
    match s.cpus[c].pc
    case Lookup => LookupKeeps(s, c);
    case Admit => AdmitKeeps(cfg, s, c);
    case Create => CreateKeeps(cfg, s, c);
    case Relookup => RelookupKeeps(s, c);
    case IncLookup => IncLookupKeeps(s, c);
    case IncAdd => IncAddKeeps(s, c);
    case IncCreate => IncCreateKeeps(cfg, s, c);
    case IncRetry => IncRetryKeeps(s, c);
  }

  lemma FromLockKeepsSafe(cfg: X.Config, s: State, c: nat)
    requires Safe(s) && c < |s.cpus| && At(s, c, s.cpus[c].pc) && !BeforeLock(s.cpus[c].pc)
    ensures Safe(ExecFromLock(cfg, s, c))
  {
    match s.cpus[c].pc
    case Idle =>
    case Lock => LockKeeps(s, c);
    case Check => CheckKeeps(s, c);
    case Add => AddKeeps(s, c);
    case Count => CountKeeps(s, c);
    case WriteBack => WriteBackKeeps(s, c);
    case Unlock => UnlockKeeps(s, c);
    case ReadConfig => ReadConfigKeeps(s, c);
    case Delete => DeleteKeeps(s, c);
    case DecLookup => DecLookupKeeps(cfg, s, c);
    case DecAdd => DecAddKeeps(cfg, s, c);
  }

  lemma ExecKeepsSafe(cfg: X.Config, s: State, c: nat)
    requires PointersOk(s) && c < |s.cpus| && Safe(s)
    ensures Safe(Exec(cfg, s, c))
  {
    assert CpuShape(s.cpus[c], |s.heap|);
    if BeforeLock(s.cpus[c].pc) {
      BeforeLockKeepsSafe(cfg, s, c);
    } else {
      FromLockKeepsSafe(cfg, s, c);
    }
  }
}
