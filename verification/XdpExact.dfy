/**
 Exactly when the kernel program's quota counters are right: on a stream without
 overruns every schedule leaves them exact and no decrement meets a zero counter;
 on any other stream some schedule breaks both.
 */
module XdpExact {
  import opened GradProto
  import opened SeenBitmap
  import opened XdpMachine
  import opened XdpSafety
  import opened XdpGuarantees
  import opened XdpOverrun
  import opened XdpQuota
  import opened XdpProgress
  import opened XdpSolo
  import X = XdpProgram

  // -------------------------------------------------------------- reachable states

  ghost predicate Reached(cfg: X.Config, cpus: nat, s: State) {
    exists actions :: Run(cfg, cpus, actions) == s
  }

  lemma ReachedOn(cfg: X.Config, cpus: nat, c: nat, s: State, t: State)
    requires Reached(cfg, cpus, s) && c < cpus && Leads(cfg, c, s, t)
    ensures Reached(cfg, cpus, t)
  {
    var actions :| Run(cfg, cpus, actions) == s;
    var n: nat :| Repeat(Alone(cfg, c), s, n) == t;
    var more := LeadsIsSchedule(cfg, cpus, actions, c, n);
    assert Run(cfg, cpus, actions + more) == t;
  }

  lemma ReachedIsSafe(cfg: X.Config, cpus: nat, s: State)
    requires Reached(cfg, cpus, s)
    ensures Safe(s) && FromArrivals(s) && |s.cpus| == cpus
  {
    var actions :| Run(cfg, cpus, actions) == s;
    RunSafe(cfg, cpus, actions);
    RunFromArrivals(cfg, cpus, actions);
  }

  lemma ReachedReceive(cfg: X.Config, cpus: nat, s: State, c: nat, p: Packet)
    requires Reached(cfg, cpus, s) && c < cpus && PointersOk(s) && |s.cpus| == cpus
    ensures Reached(cfg, cpus, Receive(s, c, p))
  {
    var actions :| Run(cfg, cpus, actions) == s;
    RunSnoc(cfg, cpus, actions, Arrive(c, p));
    assert Run(cfg, cpus, actions + [Arrive(c, p)]) == Receive(s, c, p);
  }

  // ------------------------------------------------------ one CPU for each packet

  /** The first `k` packets of the stream wait at the lookup, one on each CPU. */
  ghost predicate ArrivedUpTo(s: State, ps: seq<Packet>, k: nat) {
    && k <= |ps| == |s.cpus| && PointersOk(s) && s.slotMap == map[] && s.heap == [] && s.jobs == map[] && s.arrived == ps[..k]
    && (forall d :: 0 <= d < k ==> s.cpus[d].pc.Lookup? && s.cpus[d].p == ps[d])
    && (forall d :: k <= d < |ps| ==> s.cpus[d].pc.Idle?)
  }

  lemma OneArrives(s: State, ps: seq<Packet>, k: nat)
    requires k < |ps| && ArrivedUpTo(s, ps, k) && Bounded(ps[k])
    ensures ArrivedUpTo(Receive(s, k, ps[k]), ps, k + 1)
  {
    assert ps[..k + 1] == ps[..k] + [ps[k]];
  }

  lemma NoneArrived(cfg: X.Config, ps: seq<Packet>)
    ensures Reached(cfg, |ps|, Boot(|ps|)) && ArrivedUpTo(Boot(|ps|), ps, 0)
  {
    assert Run(cfg, |ps|, []) == Boot(|ps|);
  }

  lemma {:induction false} AllArrive(cfg: X.Config, ps: seq<Packet>, k: nat) returns (s: State)
    requires k <= |ps| && forall d :: 0 <= d < |ps| ==> Bounded(ps[d])
    ensures Reached(cfg, |ps|, s) && ArrivedUpTo(s, ps, k)
  {
    if k == 0 {
      s := Boot(|ps|);
      NoneArrived(cfg, ps);
    } else {
      var before := AllArrive(cfg, ps, k - 1);
      OneArrives(before, ps, k - 1);
      ReachedReceive(cfg, |ps|, before, k - 1, ps[k - 1]);
      s := Receive(before, k - 1, ps[k - 1]);
    }
  }

  /** Every CPU but `k` holds its packet at the lookup or is done with it. */
  ghost predicate Queued(s: State, ps: seq<Packet>, k: nat) {
    && |s.cpus| == |ps| && s.arrived == ps
    && forall d :: 0 <= d < |ps| && d != k ==> s.cpus[d].pc.Idle? || (s.cpus[d].pc.Lookup? && s.cpus[d].p == ps[d])
  }

  lemma QueuedStep(cfg: X.Config, s: State, t: State, ps: seq<Packet>, k: nat, c: nat)
    requires Queued(s, ps, k) && PointersOk(s) && c < |ps| && Leads(cfg, c, s, t)
    requires |t.cpus| == |s.cpus| && t.cpus == s.cpus[c := t.cpus[c]] && (c == k || t.cpus[c].pc.Idle?)
    ensures Queued(t, ps, k)
  {
    LeadsKeepsArrived(cfg, c, s, t);
  }

  // -------------------------------------------------------- the creator falls behind

  /** The slot of packet `p` holds what the first `m` of these packets brought. */
  ghost predicate FilledBy(x: X.Slot, p: Packet, ps: seq<Packet>, ks: seq<nat>, m: nat) {
    && x.expected == p.numWorkers && x.chunkLen == |p.values| && x.received == m <= |ks| && |x.sum| == MAX_CHUNK_LEN
    && (forall i :: 0 <= i < |ks| ==> ks[i] < |ps| && ps[ks[i]].worker < MAX_WORKERS)
    && (forall w :: 0 <= w < MAX_WORKERS ==> (Test(x.seen, w) <==> Heard(ps, ks, m, w)))
  }

  ghost predicate Heard(ps: seq<Packet>, ks: seq<nat>, m: nat, w: int) {
    exists i :: 0 <= i < m && i < |ks| && ks[i] < |ps| && ps[ks[i]].worker == w
  }

  /** CPU `k` has created its slot and not counted it, while `m` of the others have contributed. */
  ghost predicate Filling(s: State, ps: seq<Packet>, k: nat, ks: seq<nat>, m: nat) {
    && Overrun(ps, k, ks) && m < |ks| && PointersOk(s) && Queued(s, ps, k)
    && s.cpus[k].pc.IncLookup? && s.cpus[k].p == ps[k]
    && (forall i :: 0 <= i < |ks| ==> if i < m then s.cpus[ks[i]].pc.Idle? else s.cpus[ks[i]].pc.Lookup?)
    && s.jobs == map[] && View(s).slots.Keys == {ps[k].key} && FilledBy(View(s).slots[ps[k].key], ps[k], ps, ks, m)
  }

  /** CPU `k` has been admitted to create the first slot of all. */
  ghost predicate AboutToCreate(s: State, ps: seq<Packet>, k: nat) {
    && k < |ps| && At(s, k, Create) && s.cpus[k].p == ps[k] && Queued(s, ps, k)
    && (forall d :: 0 <= d < |ps| && d != k ==> s.cpus[d].pc.Lookup?)
    && s.slotMap == map[] && s.heap == [] && s.jobs == map[]
  }

  lemma CreatorAdmitted(cfg: X.Config, s: State, ps: seq<Packet>, k: nat) returns (t: State)
    requires k < |ps| && ArrivedUpTo(s, ps, |ps|) && ValidFanIn(ps[k].numWorkers)
    ensures Leads(cfg, k, s, t) && AboutToCreate(t, ps, k)
  {
    assert ps[..|ps|] == ps;
    var s1 := DoLookup(s, k);
    LeadsOne(cfg, k, s, s1);
    t := DoAdmit(cfg, s1, k);
    LeadsOne(cfg, k, s1, t);
    LeadsOn(cfg, k, s, s1, t);
  }

  /** CPU `k` has created its slot and found it again. */
  lemma CreatorWins(cfg: X.Config, s: State, ps: seq<Packet>, k: nat, ks: seq<nat>) returns (t: State)
    requires AboutToCreate(s, ps, k) && Overrun(ps, k, ks) && cfg.maxSlots >= 1 && forall d :: 0 <= d < |ps| ==> Bounded(ps[d])
    ensures Leads(cfg, k, s, t) && Filling(t, ps, k, ks, 0)
  {
    t := SoloWin(cfg, s, k);
    FreshFilled(ps, k, ks);
    QueuedStep(cfg, s, t, ps, k, k);
    assert View(t).slots == map[ps[k].key := X.Fresh(ps[k])];
  }

  lemma CreatorStalls(cfg: X.Config, ps: seq<Packet>, k: nat, ks: seq<nat>) returns (s: State)
    requires Overrun(ps, k, ks) && cfg.maxSlots >= 1 && forall d :: 0 <= d < |ps| ==> Bounded(ps[d])
    ensures Reached(cfg, |ps|, s) && Filling(s, ps, k, ks, 0)
  {
    var s0 := AllArrive(cfg, ps, |ps|);
    var s1 := CreatorAdmitted(cfg, s0, ps, k);
    ReachedOn(cfg, |ps|, k, s0, s1);
    s := CreatorWins(cfg, s1, ps, k, ks);
    ReachedOn(cfg, |ps|, k, s1, s);
  }

  lemma FreshFilled(ps: seq<Packet>, k: nat, ks: seq<nat>)
    requires Overrun(ps, k, ks) && forall d :: 0 <= d < |ps| ==> Bounded(ps[d])
    ensures FilledBy(X.Fresh(ps[k]), ps[k], ps, ks, 0)
  {
    forall w | 0 <= w < MAX_WORKERS ensures !Test(NoneMarked(), w) {
      NoneHasNone(w);
    }
  }

  /** The sequential step of the next contributor. */
  lemma NextContribution(cfg: X.Config, x: X.Slot, ps: seq<Packet>, k: nat, ks: seq<nat>, m: nat)
    requires Overrun(ps, k, ks) && m < |ks| && FilledBy(x, ps[k], ps, ks, m)
    ensures var p := ps[ks[m]];
            && x.chunkLen == |p.values| && !Test(x.seen, p.worker) && X.Accumulated(x, p).received == m + 1
            && FilledBy(X.Accumulated(x, p), ps[k], ps, ks, m + 1)
  {
    var p := ps[ks[m]];
    assert SameChunk(ps[k], p);
    assert !Heard(ps, ks, m, p.worker);
    forall w | 0 <= w < MAX_WORKERS ensures Test(Mark(x.seen, p.worker), w) <==> Heard(ps, ks, m + 1, w) {
      MarkAddsOne(x.seen, p.worker, w);
      if Test(x.seen, w) {
        var i :| 0 <= i < m && i < |ks| && ks[i] < |ps| && ps[ks[i]].worker == w;
      }
      if w == p.worker {
        assert ps[ks[m]].worker == w;
      }
    }
  }

  lemma StepOnFilling(cfg: X.Config, m: X.Maps, p: Packet)
    requires X.Shaped(m) && Bounded(p) && p.key in m.slots && m.slots[p.key].chunkLen == |p.values| && !Test(m.slots[p.key].seen, p.worker)
    ensures var x := X.Accumulated(m.slots[p.key], p);
            X.Step(cfg, m, p).1 ==
              if x.received != x.expected then m.(slots := m.slots[p.key := x])
              else X.Maps(m.slots - {p.key}, X.Decrement(m.jobs, p.key.job))
  {
  }

  lemma OthersUnhindered(s: State, ps: seq<Packet>, k: nat, c: nat)
    requires Queued(s, ps, k) && k < |ps| && !Critical(s.cpus[k].pc)
    ensures Unhindered(s, c)
  {
  }

  lemma StillWaiting(s: State, t: State, ps: seq<Packet>, k: nat, ks: seq<nat>, m: nat)
    requires Filling(s, ps, k, ks, m) && |t.cpus| == |s.cpus| && t.cpus == s.cpus[ks[m] := t.cpus[ks[m]]] && t.cpus[ks[m]].pc.Idle?
    ensures t.cpus[k] == s.cpus[k] && forall i :: 0 <= i < |ks| ==> if i <= m then t.cpus[ks[i]].pc.Idle? else t.cpus[ks[i]].pc.Lookup?
  {
  }

  /** The next of the others runs from its lookup to its verdict. */
  lemma ContributorRuns(cfg: X.Config, s: State, ps: seq<Packet>, k: nat, ks: seq<nat>, m: nat) returns (t: State)
    requires Reached(cfg, |ps|, s) && Filling(s, ps, k, ks, m)
    ensures Reached(cfg, |ps|, t) && PointersOk(t) && Queued(t, ps, k)
    ensures t.cpus[k] == s.cpus[k] && forall i :: 0 <= i < |ks| ==> if i <= m then t.cpus[ks[i]].pc.Idle? else t.cpus[ks[i]].pc.Lookup?
    ensures X.Shaped(View(s)) && Bounded(ps[ks[m]]) && View(t) == X.Step(cfg, View(s), ps[ks[m]]).1
  {
    var c := ks[m];
    ReachedIsSafe(cfg, |ps|, s);
    OthersUnhindered(s, ps, k, c);
    t := SoloRest(cfg, s, c);
    ReachedOn(cfg, |ps|, c, s, t);
    QueuedStep(cfg, s, t, ps, k, c);
    StillWaiting(s, t, ps, k, ks, m);
  }

  /** One more of the others contributes, and is done. */
  lemma FillOne(cfg: X.Config, s: State, ps: seq<Packet>, k: nat, ks: seq<nat>, m: nat) returns (t: State)
    requires Reached(cfg, |ps|, s) && Filling(s, ps, k, ks, m) && m + 1 < |ks|
    ensures Reached(cfg, |ps|, t) && Filling(t, ps, k, ks, m + 1)
  {
    t := ContributorRuns(cfg, s, ps, k, ks, m);
    NextContribution(cfg, View(s).slots[ps[k].key], ps, k, ks, m);
    StepOnFilling(cfg, View(s), ps[ks[m]]);
  }

  lemma {:induction false} FillAllButOne(cfg: X.Config, ps: seq<Packet>, k: nat, ks: seq<nat>, m: nat) returns (s: State)
    requires Overrun(ps, k, ks) && m < |ks| && cfg.maxSlots >= 1 && forall d :: 0 <= d < |ps| ==> Bounded(ps[d])
    ensures Reached(cfg, |ps|, s) && Filling(s, ps, k, ks, m)
  {
    if m == 0 {
      s := CreatorStalls(cfg, ps, k, ks);
    } else {
      var before := FillAllButOne(cfg, ps, k, ks, m - 1);
      s := FillOne(cfg, before, ps, k, ks, m - 1);
    }
  }

  // -------------------------------------------------------- the last one completes

  /** The slot is complete and gone, and its contributors are done; nobody has counted it, up or down. */
  ghost predicate Overtaken(s: State, ps: seq<Packet>, k: nat, ks: seq<nat>) {
    && Overrun(ps, k, ks) && AllIdle(s, ks) && PointersOk(s) && Queued(s, ps, k) && s.cpus[k].pc.IncLookup? && s.cpus[k].p == ps[k] && View(s) == X.Maps(map[], map[])
  }

  ghost predicate AllIdle(s: State, ks: seq<nat>) {
    forall i :: 0 <= i < |ks| ==> ks[i] < |s.cpus| && s.cpus[ks[i]].pc.Idle?
  }

  lemma LastCompletes(cfg: X.Config, s: State, ps: seq<Packet>, k: nat, ks: seq<nat>, m: nat) returns (t: State)
    requires Reached(cfg, |ps|, s) && Filling(s, ps, k, ks, m) && m + 1 == |ks|
    ensures Reached(cfg, |ps|, t) && Overtaken(t, ps, k, ks)
  {
    t := ContributorRuns(cfg, s, ps, k, ks, m);
    NextContribution(cfg, View(s).slots[ps[k].key], ps, k, ks, m);
    StepOnFilling(cfg, View(s), ps[ks[m]]);
    assert View(s).slots - {ps[k].key} == map[];
  }

  /** A decrement that finds nothing to decrement: its guard skips it, or it wraps below zero. */
  ghost predicate DecrementsZero(s: State, c: nat) {
    c < |s.cpus| && Closed(s.cpus[c]) && X.Charge(s.jobs, s.cpus[c].p.key.job) == 0
  }

  /** On its way the completing CPU meets a counter of zero. */
  lemma LooksUp(cfg: X.Config, s: State, c: nat) returns (t: State)
    requires Safe(s) && At(s, c, Lookup) && s.cpus[c].p.key in s.slotMap && Unhindered(s, c)
    ensures Leads(cfg, c, s, t) && Safe(t) && At(t, c, Lock) && t.cpus[c].p == s.cpus[c].p && t.cpus[c].ref < |t.heap|
    ensures t.slotMap == s.slotMap && t.heap == s.heap && t.jobs == s.jobs && |t.cpus| == |s.cpus|
    ensures Mapped(t, s.cpus[c].p.key, t.cpus[c].ref) && t.heap[t.cpus[c].ref].lock.None?
  {
    t := DoLookup(s, c);
    LeadsOne(cfg, c, s, t);
    LookupKeeps(s, c);
    AloneMeansUnlocked(t, c, t.cpus[c].ref);
  }

  lemma LastSkipsDecrement(cfg: X.Config, s: State, ps: seq<Packet>, k: nat, ks: seq<nat>, m: nat) returns (t: State)
    requires Reached(cfg, |ps|, s) && Filling(s, ps, k, ks, m) && m + 1 == |ks|
    ensures Reached(cfg, |ps|, t) && t.arrived == ps && DecrementsZero(t, ks[m])
  {
    var c := ks[m];
    ReachedIsSafe(cfg, |ps|, s);
    OthersUnhindered(s, ps, k, c);
    NextContribution(cfg, View(s).slots[ps[k].key], ps, k, ks, m);
    assert View(s).slots.Keys == s.slotMap.Keys;
    var s1 := LooksUp(cfg, s, c);
    t := SoloUntilDecrement(cfg, s1, c, s1.cpus[c].ref);
    LeadsOn(cfg, c, s, s1, t);
    ReachedOn(cfg, |ps|, c, s, t);
    LeadsKeepsArrived(cfg, c, s, t);
  }

  // --------------------------------------------------- the creator counts its orphan

  /** A CPU at the lock of a deleted instance finishes without touching the maps. */
  lemma OrphanDrops(cfg: X.Config, s: State, c: nat) returns (t: State)
    requires Safe(s) && At(s, c, Lock) && s.heap[s.cpus[c].ref].removed && s.heap[s.cpus[c].ref].lock.None?
    ensures Leads(cfg, c, s, t) && t.slotMap == s.slotMap && t.jobs == s.jobs
    ensures |t.cpus| == |s.cpus| && t.cpus == s.cpus[c := t.cpus[c]] && t.cpus[c].pc.Idle?
    ensures PointersOk(t) && View(t).slots.Keys == View(s).slots.Keys
  {
    var r := s.cpus[c].ref;
    assert InstanceOk(s, r);
    AtMost256(s.heap[r]);
    if Acceptable(s.heap[r], s.cpus[c].p) {
      t := OrphanAbsorbs(cfg, s, c);
    } else {
      t := OrphanRejects(cfg, s, c);
    }
    LeadsKeepsPointers(cfg, c, s, t);
  }

  lemma OrphanRejects(cfg: X.Config, s: State, c: nat) returns (t: State)
    requires At(s, c, Lock) && s.heap[s.cpus[c].ref].lock.None? && !Acceptable(s.heap[s.cpus[c].ref], s.cpus[c].p)
    ensures Leads(cfg, c, s, t) && t.slotMap == s.slotMap && t.jobs == s.jobs
    ensures |t.cpus| == |s.cpus| && t.cpus == s.cpus[c := t.cpus[c]] && t.cpus[c].pc.Idle?
  {
    var r, u := s.cpus[c].ref, s.cpus[c];
    var i := s.heap[r];
    var i1, u1 := i.(lock := Some(c)), u.(pc := Check, done := false);
    var u2 := u1.(pc := Unlock);
    t := Local(s.(log := s.log + [Drop(u.p)]), c, r, i1.(lock := None), u2.(pc := Idle));
    SameHere(s, c, r);
    TakeLock(cfg, s, c, r, i, u);
    RejectStep(cfg, s, c, r, i1, u1);
    LeadsOn(cfg, c, s, Local(s, c, r, i1, u1), Local(s, c, r, i1, u2));
    DropOut(cfg, s, c, r, i1, u2);
    LeadsOn(cfg, c, s, Local(s, c, r, i1, u2), t);
  }

  /** A late contribution to a complete slot is counted past the expected number. */
  lemma OrphanAbsorbs(cfg: X.Config, s: State, c: nat) returns (t: State)
    requires At(s, c, Lock) && s.heap[s.cpus[c].ref].lock.None? && Acceptable(s.heap[s.cpus[c].ref], s.cpus[c].p)
    requires var x := s.heap[s.cpus[c].ref].slot; 1 <= x.expected <= x.received <= MAX_WORKERS
    ensures Leads(cfg, c, s, t) && t.slotMap == s.slotMap && t.jobs == s.jobs
    ensures |t.cpus| == |s.cpus| && t.cpus == s.cpus[c := t.cpus[c]] && t.cpus[c].pc.Idle?
  {
    var r := s.cpus[c].ref;
    var i, u := SoloAbsorb(cfg, s, c, r);
    var u' := u.(pc := Unlock);
    CountStep(cfg, s, c, r, i, u);
    LeadsOn(cfg, c, s, Local(s, c, r, i, u), Local(s, c, r, Counting(i), u'));
    DropOut(cfg, s, c, r, Counting(i), u');
    t := Local(s.(log := s.log + [Drop(u.p)]), c, r, Counting(i).(lock := None), u'.(pc := Idle));
    LeadsOn(cfg, c, s, Local(s, c, r, Counting(i), u'), t);
  }

  /** The job is charged for one slot more than it has. */
  ghost predicate Overcharged(m: X.Maps, job: u32) {
    job in m.jobs && m.jobs[job] == |LiveKeys(m.slots, job)| + 1
  }

  lemma CreatorCharges(cfg: X.Config, s: State, ps: seq<Packet>, k: nat, ks: seq<nat>) returns (t: State)
    requires Reached(cfg, |ps|, s) && Overtaken(s, ps, k, ks) && cfg.maxJobs >= 1
    ensures Reached(cfg, |ps|, t) && At(t, k, Lock) && Queued(t, ps, k) && t.cpus[k].p == ps[k]
    ensures View(t) == X.Maps(map[], map[ps[k].key.job := 1]) && AllIdle(t, ks)
  {
    ReachedIsSafe(cfg, |ps|, s);
    t := SoloIncrement(cfg, s, k);
    ReachedOn(cfg, |ps|, k, s, t);
    ReachedIsSafe(cfg, |ps|, t);
    QueuedStep(cfg, s, t, ps, k, k);
    assert CpuShape(t.cpus[k], |t.heap|);
    assert View(t).slots == View(s).slots;
  }

  lemma OrphanIsFree(s: State, ps: seq<Packet>, k: nat)
    requires Safe(s) && k < |ps| && At(s, k, Lock) && Queued(s, ps, k) && s.slotMap == map[]
    ensures s.heap[s.cpus[k].ref].removed && s.heap[s.cpus[k].ref].lock.None?
  {
    assert InstanceOk(s, s.cpus[k].ref);
  }

  lemma NothingLive(s: State, job: u32)
    requires PointersOk(s) && s.slotMap == map[] && s.jobs == map[job := 1]
    ensures Overcharged(View(s), job)
  {
    assert View(s).slots == map[];
    assert LiveKeys(View(s).slots, job) == {};
  }

  lemma CreatorFinishes(cfg: X.Config, s: State, ps: seq<Packet>, k: nat, ks: seq<nat>) returns (t: State)
    requires Reached(cfg, |ps|, s) && Overtaken(s, ps, k, ks) && cfg.maxJobs >= 1
    ensures Reached(cfg, |ps|, t) && k < |t.cpus| && t.cpus[k].pc.Idle? && Queued(t, ps, k)
    ensures PointersOk(t) && t.slotMap == map[] && t.jobs == map[ps[k].key.job := 1] && Overcharged(View(t), ps[k].key.job)
    ensures AllIdle(t, ks)
  {
    var s1 := CreatorCharges(cfg, s, ps, k, ks);
    ReachedIsSafe(cfg, |ps|, s1);
    assert View(s1).slots.Keys == s1.slotMap.Keys;
    OrphanIsFree(s1, ps, k);
    t := OrphanDrops(cfg, s1, k);
    ReachedOn(cfg, |ps|, k, s1, t);
    QueuedStep(cfg, s1, t, ps, k, k);
    NothingLive(t, ps[k].key.job);
  }

  // -------------------------------------------- the others cannot make up for it

  lemma OpenKeepsOvercharged(cfg: X.Config, m: X.Maps, p: Packet, job: u32)
    requires Overcharged(m, job) && cfg.maxSlots + 1 < TWO32 && |m.slots| <= cfg.maxSlots
    ensures Overcharged(X.Open(cfg, m, p), job) && |X.Open(cfg, m, p).slots| <= cfg.maxSlots
  {
    if X.Open(cfg, m, p) != m {
      LiveKeysAdd(m.slots, p.key, X.Fresh(p), job);
      LiveAtMostMap(m.slots, job);
      assert m.slots[p.key := X.Fresh(p)].Keys == m.slots.Keys + {p.key};
      assert |m.slots| == |m.slots.Keys| && |m.slots[p.key := X.Fresh(p)]| == |m.slots[p.key := X.Fresh(p)].Keys|;
    }
  }

  lemma ContributeKeepsOvercharged(cfg: X.Config, m: X.Maps, p: Packet, job: u32)
    requires X.Shaped(m) && p.key in m.slots && Bounded(p) && Overcharged(m, job) && |m.slots| <= cfg.maxSlots
    ensures Overcharged(X.Contribute(cfg, m, p).1, job) && |X.Contribute(cfg, m, p).1.slots| <= cfg.maxSlots
  {
    var m' := X.Contribute(cfg, m, p).1;
    assert |m.slots| == |m.slots.Keys| && |m'.slots| == |m'.slots.Keys|;
    if p.key in m'.slots {
      assert m'.slots.Keys == m.slots.Keys;
      assert LiveKeys(m'.slots, job) == LiveKeys(m.slots, job);
    } else {
      LiveKeysRemove(m.slots, p.key, job);
      assert m'.slots.Keys == m.slots.Keys - {p.key};
    }
  }

  lemma StepKeepsOvercharged(cfg: X.Config, m: X.Maps, p: Packet, job: u32)
    requires X.Shaped(m) && Overcharged(m, job) && cfg.maxSlots + 1 < TWO32 && |m.slots| <= cfg.maxSlots
    ensures Overcharged(X.Step(cfg, m, p).1, job) && |X.Step(cfg, m, p).1.slots| <= cfg.maxSlots
  {
    if Bounded(p) {
      var m1 := X.Open(cfg, m, p);
      OpenKeepsOvercharged(cfg, m, p, job);
      if p.key in m1.slots {
        ContributeKeepsOvercharged(cfg, m1, p, job);
      }
    }
  }

  /** All CPUs from `d` on may still have a packet to handle. */
  ghost predicate Draining(cfg: X.Config, s: State, ps: seq<Packet>, d: nat, job: u32) {
    && d <= |ps| && PointersOk(s) && Queued(s, ps, |ps|) && (forall c :: 0 <= c < d ==> s.cpus[c].pc.Idle?)
    && Overcharged(View(s), job) && |View(s).slots| <= cfg.maxSlots
  }

  lemma DrainOne(cfg: X.Config, s: State, ps: seq<Packet>, d: nat, job: u32) returns (t: State)
    requires Reached(cfg, |ps|, s) && Draining(cfg, s, ps, d, job) && d < |ps| && cfg.maxSlots + 1 < TWO32
    ensures Reached(cfg, |ps|, t) && Draining(cfg, t, ps, d + 1, job)
  {
    if s.cpus[d].pc.Idle? {
      t := s;
    } else {
      ReachedIsSafe(cfg, |ps|, s);
      t := SoloRest(cfg, s, d);
      ReachedOn(cfg, |ps|, d, s, t);
      QueuedStep(cfg, s, t, ps, |ps|, d);
      StepKeepsOvercharged(cfg, View(s), s.cpus[d].p, job);
    }
  }

  lemma {:induction false} DrainAll(cfg: X.Config, s: State, ps: seq<Packet>, d: nat, job: u32) returns (t: State)
    requires Reached(cfg, |ps|, s) && Draining(cfg, s, ps, d, job) && cfg.maxSlots + 1 < TWO32
    ensures Reached(cfg, |ps|, t) && Draining(cfg, t, ps, |ps|, job)
    decreases |ps| - d
  {
    if d == |ps| {
      t := s;
    } else {
      var s1 := DrainOne(cfg, s, ps, d, job);
      t := DrainAll(cfg, s1, ps, d + 1, job);
    }
  }

  // ----------------------------------------------------------------- main results

  /** Every job's counter is the number of its slot_map entries. */
  ghost predicate CountersExact(s: State) {
    forall job: u32 :: X.Charge(s.jobs, job) == |LiveKeys(s.slotMap, job)|
  }

  /** A finished run of this stream on so few CPUs that counters cannot reach 2^32. */
  ghost predicate Finishes(cfg: X.Config, cpus: nat, actions: seq<Action>, ps: seq<Packet>) {
    Handles(cfg, cpus, actions, ps) && Quiescent(Run(cfg, cpus, actions))
  }

  ghost predicate Handles(cfg: X.Config, cpus: nat, actions: seq<Action>, ps: seq<Packet>) {
    cfg.maxSlots + cpus < TWO32 && Run(cfg, cpus, actions).arrived == ps
  }

  /** A stream the maps have room for: some slot, and an entry for each job. */
  ghost predicate Housed(cfg: X.Config, ps: seq<Packet>) {
    && (forall k :: 0 <= k < |ps| ==> Bounded(ps[k]))
    && 1 <= cfg.maxSlots && |JobsOf(ps)| <= cfg.maxJobs && cfg.maxSlots + |ps| < TWO32
  }

  lemma RoomForSome(cfg: X.Config, ps: seq<Packet>, k: nat)
    requires Housed(cfg, ps) && k < |ps|
    ensures cfg.maxJobs >= 1
  {
    assert ps[k].key.job in JobsOf(ps);
    SmallerSet({}, JobsOf(ps), ps[k].key.job);
  }

  lemma DrainingIsInexact(cfg: X.Config, s: State, ps: seq<Packet>, job: u32)
    requires Draining(cfg, s, ps, |ps|, job)
    ensures Quiescent(s) && !CountersExact(s)
  {
    assert LiveKeys(View(s).slots, job) == LiveKeys(s.slotMap, job);
    assert X.Charge(s.jobs, job) != |LiveKeys(s.slotMap, job)|;
  }

  /** Any overrun can be scheduled so that a job stays charged for a slot that is gone. */
  lemma OverrunBreaksCounters(cfg: X.Config, ps: seq<Packet>, k: nat, ks: seq<nat>) returns (actions: seq<Action>)
    requires Housed(cfg, ps) && Overrun(ps, k, ks)
    ensures Finishes(cfg, |ps|, actions, ps) && !CountersExact(Run(cfg, |ps|, actions))
  {
    RoomForSome(cfg, ps, k);
    var s1 := FillAllButOne(cfg, ps, k, ks, |ks| - 1);
    var s2 := LastCompletes(cfg, s1, ps, k, ks, |ks| - 1);
    var s3 := CreatorFinishes(cfg, s2, ps, k, ks);
    assert View(s3).slots.Keys == s3.slotMap.Keys;
    assert |View(s3).slots| == |View(s3).slots.Keys| && |s3.slotMap| == |s3.slotMap.Keys|;
    var s4 := DrainAll(cfg, s3, ps, 0, ps[k].key.job);
    DrainingIsInexact(cfg, s4, ps, ps[k].key.job);
    actions :| Run(cfg, |ps|, actions) == s4;
  }

  /**
   The counters of every finished schedule of a stream are exact if and only if the
   stream has no overrun.
   */
  lemma CountersExactIff(cfg: X.Config, ps: seq<Packet>)
    requires Housed(cfg, ps)
    ensures (forall cpus: nat, actions :: Finishes(cfg, cpus, actions, ps) ==> CountersExact(Run(cfg, cpus, actions))) <==> NoOverrun(ps)
  {
    if NoOverrun(ps) {
      forall cpus: nat, actions | Finishes(cfg, cpus, actions, ps) ensures CountersExact(Run(cfg, cpus, actions)) {
        forall job: u32 ensures X.Charge(Run(cfg, cpus, actions).jobs, job) == |LiveKeys(Run(cfg, cpus, actions).slotMap, job)| {
          QuiescentCountersExact(cfg, cpus, actions, job);
        }
      }
    } else {
      var k: nat, ks: seq<nat> :| Overrun(ps, k, ks);
      var actions := OverrunBreaksCounters(cfg, ps, k, ks);
    }
  }

  ghost predicate MeetsZero(cfg: X.Config, cpus: nat, actions: seq<Action>, c: nat) {
    DecrementsZero(Run(cfg, cpus, actions), c)
  }

  lemma OneLeft(cfg: X.Config, ps: seq<Packet>, k: nat, ks: seq<nat>) returns (s: State, m: nat)
    requires Housed(cfg, ps) && Overrun(ps, k, ks)
    ensures Reached(cfg, |ps|, s) && Filling(s, ps, k, ks, m) && m + 1 == |ks|
  {
    m := |ks| - 1;
    s := FillAllButOne(cfg, ps, k, ks, m);
  }

  lemma OverrunReachesZero(cfg: X.Config, ps: seq<Packet>, k: nat, ks: seq<nat>) returns (s: State)
    requires Housed(cfg, ps) && Overrun(ps, k, ks)
    ensures Reached(cfg, |ps|, s) && s.arrived == ps && DecrementsZero(s, ks[|ks| - 1])
  {
    var s1, m := OneLeft(cfg, ps, k, ks);
    s := LastSkipsDecrement(cfg, s1, ps, k, ks, m);
  }

  lemma OverrunMeetsZero(cfg: X.Config, ps: seq<Packet>, k: nat, ks: seq<nat>) returns (actions: seq<Action>)
    requires Housed(cfg, ps) && Overrun(ps, k, ks)
    ensures Handles(cfg, |ps|, actions, ps) && MeetsZero(cfg, |ps|, actions, ks[|ks| - 1])
  {
    var s := OverrunReachesZero(cfg, ps, k, ks);
    actions :| Run(cfg, |ps|, actions) == s;
  }

  /** No decrement of any schedule of a stream meets a zero counter if and only if the stream has no overrun. */
  lemma DecrementsPositiveIff(cfg: X.Config, ps: seq<Packet>)
    requires Housed(cfg, ps)
    ensures (forall cpus: nat, actions, c: nat :: Handles(cfg, cpus, actions, ps) ==> !MeetsZero(cfg, cpus, actions, c)) <==> NoOverrun(ps)
  {
    if NoOverrun(ps) {
      forall cpus: nat, actions, c: nat | Handles(cfg, cpus, actions, ps) ensures !MeetsZero(cfg, cpus, actions, c) {
        if c < cpus && Closed(Run(cfg, cpus, actions).cpus[c]) {
          NeverUnderflows(cfg, cpus, actions, c);
        }
      }
    } else {
      var k: nat, ks: seq<nat> :| Overrun(ps, k, ks);
      var actions := OverrunMeetsZero(cfg, ps, k, ks);
      assert MeetsZero(cfg, |ps|, actions, ks[|ks| - 1]);
    }
  }
}
