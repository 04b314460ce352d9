/**
 The quota counters of the concurrent kernel program on streams without overruns:
 they never underflow, count the live slots whenever no CPU is mid-packet, and
 stay within quota + CPUs - 1 although check and increment are separate steps.
 */
module XdpQuota {
  import opened GradProto
  import opened XdpMachine
  import opened XdpSafety
  import opened XdpGuarantees
  import opened XdpOverrun
  import X = XdpProgram

  // -------------------------------------------------------------------- counting

  /** What a CPU still owes a job's counter: an increment, a decrement, or a create it was admitted to. */
  datatype Debt = Increment | Decrement | Creation

  predicate Owes(u: Cpu, debt: Debt, job: u32) {
    && !u.pc.Idle? && u.p.key.job == job
    && match debt
       case Increment => Won(u)
       case Decrement => Closed(u)
       case Creation => u.pc.Create?
  }

  ghost function Owing(cpus: seq<Cpu>, debt: Debt, job: u32): set<nat> {
    set c | 0 <= c < |cpus| && Owes(cpus[c], debt, job)
  }

  ghost function LiveKeys<V>(slots: map<Key, V>, job: u32): set<Key> {
    set k | k in slots && k.job == job
  }

  function One(b: bool): int {
    if b then 1 else 0
  }

  lemma OwingElsewhere(cpus: seq<Cpu>, c: nat, u: Cpu, debt: Debt, job: u32)
    requires c < |cpus|
    ensures Owing(cpus[c := u], debt, job) - {c} == Owing(cpus, debt, job) - {c}
  {
  }

  lemma OwingUpdate(cpus: seq<Cpu>, c: nat, u: Cpu, debt: Debt, job: u32)
    requires c < |cpus|
    ensures |Owing(cpus[c := u], debt, job)| == |Owing(cpus, debt, job)| - One(Owes(cpus[c], debt, job)) + One(Owes(u, debt, job))
  {
    OwingElsewhere(cpus, c, u, debt, job);
    WithoutOne(Owing(cpus, debt, job), c);
    WithoutOne(Owing(cpus[c := u], debt, job), c);
  }

  lemma WithoutOne(a: set<nat>, c: nat)
    ensures |a - {c}| == |a| - One(c in a)
  {
    if c !in a {
      assert a - {c} == a;
    }
  }

  lemma LiveKeysAdd<V>(m: map<Key, V>, k: Key, v: V, job: u32)
    requires k !in m
    ensures |LiveKeys(m[k := v], job)| == |LiveKeys(m, job)| + One(k.job == job)
  {
    assert LiveKeys(m[k := v], job) == LiveKeys(m, job) + if k.job == job then {k} else {};
  }

  lemma LiveKeysRemove<V>(m: map<Key, V>, k: Key, job: u32)
    requires k in m
    ensures |LiveKeys(m - {k}, job)| == |LiveKeys(m, job)| - One(k.job == job)
  {
    assert LiveKeys(m - {k}, job) == LiveKeys(m, job) - if k.job == job then {k} else {};
  }

  lemma {:induction false} ImageSize(cs: set<nat>, cpus: seq<Cpu>, keys: set<Key>)
    requires forall c :: c in cs ==> c < |cpus| && cpus[c].p.key in keys
    requires forall c, d :: c in cs && d in cs && c != d ==> cpus[c].p.key != cpus[d].p.key
    ensures |cs| <= |keys|
  {
    if cs != {} {
      var c :| c in cs;
      ImageSize(cs - {c}, cpus, keys - {cpus[c].p.key});
    }
  }

  lemma CpusBelow(cs: set<nat>, n: nat)
    requires forall c :: c in cs ==> c < n
    ensures |cs| <= n
  {
    var ints := set c | c in cs :: c as int;
    assert ints == cs;
    assert ints <= Below(n);
    SubsetSize(ints, Below(n));
  }

  /** Each uncounted slot is in the map, under its creator's key. */
  lemma UncountedAreLive(s: State, job: u32)
    requires WinnersOk(s)
    ensures |Owing(s.cpus, Increment, job)| <= |LiveKeys(s.slotMap, job)|
  {
    var cs := Owing(s.cpus, Increment, job);
    assert forall c :: c in cs ==> WinnerOk(s, c);
    ImageSize(cs, s.cpus, LiveKeys(s.slotMap, job));
  }

  // ------------------------------------------------------------------- invariant

  /** Slots in the map, less those not counted yet, plus those not discounted yet. */
  ghost predicate Balanced(s: State, job: u32) {
    |LiveKeys(s.slotMap, job)| + |Owing(s.cpus, Decrement, job)| == X.Charge(s.jobs, job) + |Owing(s.cpus, Increment, job)|
  }

  ghost function JobsOf(ps: seq<Packet>): set<u32> {
    set k | 0 <= k < |ps| :: ps[k].key.job
  }

  /** Room for every job of the stream, and counters that cannot reach 2^32. */
  ghost predicate RoomForJobs(cfg: X.Config, cpus: nat, arrived: seq<Packet>) {
    |JobsOf(arrived)| <= cfg.maxJobs && cfg.maxSlots + cpus < TWO32
  }

  ghost predicate EntriesOk(s: State) {
    && (forall j :: j in s.jobs ==> j in JobsOf(s.arrived))
    && (forall c :: 0 <= c < |s.cpus| && (s.cpus[c].pc.IncAdd? || s.cpus[c].pc.IncRetry?) ==> s.cpus[c].p.key.job in s.jobs)
  }

  ghost predicate QuotaInv(cfg: X.Config, s: State) {
    && (forall j: u32 :: Balanced(s, j)) && EntriesOk(s) && |s.slotMap| <= cfg.maxSlots
  }

  lemma LiveAtMostMap<V>(m: map<Key, V>, job: u32)
    ensures |LiveKeys(m, job)| <= |m|
  {
    assert LiveKeys(m, job) <= m.Keys;
    assert |m| == |m.Keys|;
    assert m.Keys == LiveKeys(m, job) + (m.Keys - LiveKeys(m, job));
  }

  /** A CPU about to decrement finds a positive counter; one about to increment finds room below 2^32. */
  lemma CounterRange(cfg: X.Config, s: State, c: nat)
    requires Orderly(s) && QuotaInv(cfg, s) && RoomForJobs(cfg, |s.cpus|, s.arrived) && c < |s.cpus|
    ensures var j := s.cpus[c].p.key.job;
            && (Closed(s.cpus[c]) ==> X.Charge(s.jobs, j) > 0)
            && (Won(s.cpus[c]) ==> X.Charge(s.jobs, j) + 1 < TWO32)
  {
    var j := s.cpus[c].p.key.job;
    assert Balanced(s, j);
    UncountedAreLive(s, j);
    LiveAtMostMap(s.slotMap, j);
    CpusBelow(Owing(s.cpus, Decrement, j), |s.cpus|);
    if Closed(s.cpus[c]) {
      assert c in Owing(s.cpus, Decrement, j);
    }
    if Won(s.cpus[c]) {
      assert c in Owing(s.cpus, Increment, j);
    }
  }

  // ------------------------------------------------------------------ preservation

  /**
   How far a step moves the live slots and the counter of its packet's job: in
   balance with what its CPU owes, and, past admission, never towards more
   counted, uncounted and admitted slots together.
   */
  ghost predicate Moves(s: State, s': State, c: nat, live: int, counter: int)
    requires c < |s.cpus| && |s'.cpus| == |s.cpus|
  {
    var j, u, u' := s.cpus[c].p.key.job, s.cpus[c], s'.cpus[c];
    && s'.cpus == s.cpus[c := u'] && u'.p == u.p && !u.pc.Idle?
    && (forall k: u32 :: |LiveKeys(s'.slotMap, k)| == |LiveKeys(s.slotMap, k)| + if k == j then live else 0)
    && (forall k: u32 :: X.Charge(s'.jobs, k) == X.Charge(s.jobs, k) + if k == j then counter else 0)
    && live - One(Closed(u)) + One(Closed(u')) == counter - One(Won(u)) + One(Won(u'))
    && (counter - One(Won(u)) + One(Won(u')) <= One(u.pc.Create?) - One(u'.pc.Create?) || u.pc.Admit?)
  }

  lemma MoveKeepsBalance(s: State, s': State, c: nat, live: int, counter: int)
    requires c < |s.cpus| && |s'.cpus| == |s.cpus| && Moves(s, s', c, live, counter)
    requires forall j: u32 :: Balanced(s, j)
    ensures forall j: u32 :: Balanced(s', j)
  {
    forall j: u32 ensures Balanced(s', j) {
      assert Balanced(s, j);
      OwingUpdate(s.cpus, c, s'.cpus[c], Increment, j);
      OwingUpdate(s.cpus, c, s'.cpus[c], Decrement, j);
    }
  }

  /** Steps that leave slot_map and the counters alone. */
  lemma Still(s: State, s': State, c: nat)
    requires c < |s.cpus| && Follows(s, s', c) && LeavesMaps(s, s', c) && !s.cpus[c].pc.Idle?
    ensures Moves(s, s', c, 0, 0)
  {
  }

  lemma CreateMoves(cfg: X.Config, s: State, c: nat) returns (live: int)
    requires At(s, c, Create)
    ensures Moves(s, DoCreate(cfg, s, c), c, live, 0)
  {
    var s' := DoCreate(cfg, s, c);
    var key := s.cpus[c].p.key;
    if s'.slotMap == s.slotMap {
      live := 0;
    } else {
      live := 1;
      forall k: u32 ensures |LiveKeys(s'.slotMap, k)| == |LiveKeys(s.slotMap, k)| + One(k == key.job) {
        LiveKeysAdd(s.slotMap, key, |s.heap|, k);
      }
    }
  }

  lemma RelookupMoves(s: State, c: nat)
    requires At(s, c, Relookup) && WinnerOk(s, c)
    ensures Moves(s, DoRelookup(s, c), c, 0, 0)
  {
    Still(s, DoRelookup(s, c), c);
  }

  lemma IncAddMoves(s: State, c: nat)
    requires At(s, c, IncAdd) && s.cpus[c].p.key.job in s.jobs && X.Charge(s.jobs, s.cpus[c].p.key.job) + 1 < TWO32
    ensures Moves(s, DoIncAdd(s, c), c, 0, 1)
  {
  }

  lemma RoomForJob(cfg: X.Config, s: State, c: nat)
    requires c < |s.cpus| && !s.cpus[c].pc.Idle? && FromArrivals(s) && EntriesOk(s) && |JobsOf(s.arrived)| <= cfg.maxJobs
    ensures s.cpus[c].p.key.job in s.jobs || |s.jobs| < cfg.maxJobs
  {
    var j := s.cpus[c].p.key.job;
    assert s.cpus[c].p in s.arrived;
    assert j in JobsOf(s.arrived);
    if j !in s.jobs {
      SmallerSet(s.jobs.Keys, JobsOf(s.arrived), j);
      assert |s.jobs| == |s.jobs.Keys|;
    }
  }

  lemma EntryMissing(cfg: X.Config, s: State, c: nat)
    requires At(s, c, IncCreate) && s.cpus[c].p.key.job !in s.jobs && |s.jobs| < cfg.maxJobs
    ensures Moves(s, DoIncCreate(cfg, s, c), c, 0, 1) && DoIncCreate(cfg, s, c).cpus[c].pc.Lock?
  {
  }

  lemma EntryPresent(cfg: X.Config, s: State, c: nat)
    requires At(s, c, IncCreate) && s.cpus[c].p.key.job in s.jobs
    ensures Moves(s, DoIncCreate(cfg, s, c), c, 0, 0)
  {
  }

  /** A failed entry creation means another CPU's entry: the map is not full. */
  lemma IncCreateMoves(cfg: X.Config, s: State, c: nat) returns (counter: int)
    requires At(s, c, IncCreate) && FromArrivals(s) && EntriesOk(s) && |JobsOf(s.arrived)| <= cfg.maxJobs
    ensures var s' := DoIncCreate(cfg, s, c);
            Moves(s, s', c, 0, counter) && (s'.cpus[c].pc.IncRetry? ==> s.cpus[c].p.key.job in s.jobs)
  {
    RoomForJob(cfg, s, c);
    if s.cpus[c].p.key.job in s.jobs {
      EntryPresent(cfg, s, c);
      counter := 0;
    } else {
      EntryMissing(cfg, s, c);
      counter := 1;
    }
  }

  lemma IncRetryMoves(s: State, c: nat)
    requires At(s, c, IncRetry) && s.cpus[c].p.key.job in s.jobs
    ensures Moves(s, DoIncRetry(s, c), c, 0, 0)
  {
    Still(s, DoIncRetry(s, c), c);
  }

  lemma DeleteMoves(s: State, c: nat)
    requires Safe(s) && At(s, c, Delete)
    ensures Moves(s, DoDelete(s, c), c, -1, 0)
  {
    var s', key := DoDelete(s, c), s.cpus[c].p.key;
    DeletesItsOwn(s, c);
    forall k: u32 ensures |LiveKeys(s'.slotMap, k)| == |LiveKeys(s.slotMap, k)| - One(k == key.job) {
      LiveKeysRemove(s.slotMap, key, k);
    }
  }

  /** The guard sees a positive counter, and it is still positive at the atomic add. */
  lemma DecrementMoves(cfg: X.Config, s: State, c: nat) returns (counter: int)
    requires PointersOk(s) && c < |s.cpus| && Closed(s.cpus[c]) && X.Charge(s.jobs, s.cpus[c].p.key.job) > 0
    ensures Moves(s, Exec(cfg, s, c), c, 0, counter)
  {
    var s' := Exec(cfg, s, c);
    if s.cpus[c].pc.DecLookup? {
      counter := 0;
      Still(s, s', c);
    } else {
      counter := -1;
    }
  }

  // ------------------------------------------------------------------- every step

  lemma IncrementMoves(cfg: X.Config, s: State, c: nat) returns (counter: int)
    requires Orderly(s) && QuotaInv(cfg, s) && RoomForJobs(cfg, |s.cpus|, s.arrived)
    requires c < |s.cpus| && Incrementing(s.cpus[c].pc)
    ensures Moves(s, Exec(cfg, s, c), c, 0, counter)
  {
    CounterRange(cfg, s, c);
    counter := 0;
    match s.cpus[c].pc
    case IncLookup => Still(s, DoIncLookup(s, c), c);
    case IncAdd =>
      IncAddMoves(s, c);
      counter := 1;
    case IncCreate => counter := IncCreateMoves(cfg, s, c);
    case IncRetry => IncRetryMoves(s, c);
  }

  lemma StepMoves(cfg: X.Config, s: State, c: nat) returns (live: int, counter: int)
    requires Orderly(s) && QuotaInv(cfg, s) && RoomForJobs(cfg, |s.cpus|, s.arrived)
    requires c < |s.cpus| && !s.cpus[c].pc.Idle?
    ensures Moves(s, Exec(cfg, s, c), c, live, counter)
  {
    live, counter := 0, 0;
    if Plain(s.cpus[c].pc) {
      Still(s, Exec(cfg, s, c), c);
    } else if Incrementing(s.cpus[c].pc) {
      counter := IncrementMoves(cfg, s, c);
    } else if Closed(s.cpus[c]) {
      CounterRange(cfg, s, c);
      counter := DecrementMoves(cfg, s, c);
    } else if s.cpus[c].pc.Create? {
      live := CreateMoves(cfg, s, c);
    } else if s.cpus[c].pc.Relookup? {
      assert WinnerOk(s, c);
      RelookupMoves(s, c);
    } else {
      DeleteMoves(s, c);
      live := -1;
    }
  }

  /** Entries appear only for jobs that sent something, and never disappear. */
  lemma EntriesStay(s: State, s': State, c: nat)
    requires FromArrivals(s) && EntriesOk(s) && c < |s.cpus| && !s.cpus[c].pc.Idle? && Follows(s, s', c)
    requires s'.cpus[c].pc.IncRetry? ==> s.cpus[c].p.key.job in s.jobs
    ensures EntriesOk(s')
  {
    assert s.cpus[c].p in s.arrived;
    assert s.cpus[c].p.key.job in JobsOf(s.arrived);
    assert forall d :: 0 <= d < |s.cpus| && d != c ==> s'.cpus[d] == s.cpus[d];
  }

  lemma MapSizes(m: map<Key, nat>, k: Key, r: nat)
    ensures |m - {k}| <= |m|
    ensures k !in m ==> |m[k := r]| == |m| + 1
  {
    assert |m| == |m.Keys| && |m - {k}| == |(m - {k}).Keys| && |m[k := r]| == |m[k := r].Keys|;
    assert (m - {k}).Keys == m.Keys - {k};
    assert m[k := r].Keys == m.Keys + {k};
  }

  lemma SlotMapFits(cfg: X.Config, s: State, s': State, c: nat)
    requires c < |s.cpus| && |s.slotMap| <= cfg.maxSlots && Follows(s, s', c)
    requires |s'.heap| > |s.heap| ==> |s.slotMap| < cfg.maxSlots
    ensures |s'.slotMap| <= cfg.maxSlots
  {
    MapSizes(s.slotMap, s.cpus[c].p.key, |s.heap|);
  }

  lemma ExecKeepsQuota(cfg: X.Config, s: State, c: nat)
    requires Orderly(s) && QuotaInv(cfg, s) && RoomForJobs(cfg, |s.cpus|, s.arrived) && c < |s.cpus|
    ensures QuotaInv(cfg, Exec(cfg, s, c))
  {
    if !s.cpus[c].pc.Idle? {
      var s' := Exec(cfg, s, c);
      var live, counter := StepMoves(cfg, s, c);
      MoveKeepsBalance(s, s', c, live, counter);
      if s.cpus[c].pc.IncCreate? {
        var _ := IncCreateMoves(cfg, s, c);
      }
      EntriesStay(s, s', c);
      SlotMapFits(cfg, s, s', c);
    }
  }

  lemma ReceiveKeepsQuota(cfg: X.Config, s: State, c: nat, p: Packet)
    requires PointersOk(s) && c < |s.cpus| && QuotaInv(cfg, s)
    ensures QuotaInv(cfg, Receive(s, c, p))
  {
    var s' := Receive(s, c, p);
    forall j: u32 ensures Balanced(s', j) {
      assert Balanced(s, j);
      OwingUpdate(s.cpus, c, s'.cpus[c], Increment, j);
      OwingUpdate(s.cpus, c, s'.cpus[c], Decrement, j);
      assert s.cpus == s.cpus[c := s.cpus[c]];
    }
    assert JobsOf(s.arrived) <= JobsOf(s'.arrived) by {
      assert forall k :: 0 <= k < |s.arrived| ==> s'.arrived[k] == s.arrived[k];
    }
  }

  lemma JobsOfPrefix(ps: seq<Packet>, more: seq<Packet>)
    requires ps <= more
    ensures |JobsOf(ps)| <= |JobsOf(more)|
  {
    assert forall k :: 0 <= k < |ps| ==> ps[k] == more[k];
    var a, b := JobsOf(ps), JobsOf(more);
    assert a <= b;
    assert b == a + (b - a);
  }

  lemma BootQuota(cfg: X.Config, cpus: nat)
    ensures QuotaInv(cfg, Boot(cpus))
  {
    var s := Boot(cpus);
    forall j: u32 ensures Balanced(s, j) {
      assert LiveKeys(s.slotMap, j) == {} && Owing(s.cpus, Increment, j) == {} && Owing(s.cpus, Decrement, j) == {};
    }
  }

  lemma {:induction false} RunQuota(cfg: X.Config, cpus: nat, actions: seq<Action>)
    requires NoOverrun(Run(cfg, cpus, actions).arrived) && RoomForJobs(cfg, cpus, Run(cfg, cpus, actions).arrived)
    ensures QuotaInv(cfg, Run(cfg, cpus, actions)) && Orderly(Run(cfg, cpus, actions))
  {
    RunOrderly(cfg, cpus, actions);
    if actions == [] {
      BootQuota(cfg, cpus);
    } else {
      var s, a := Run(cfg, cpus, actions[..|actions| - 1]), actions[|actions| - 1];
      ApplyGrowsStream(cfg, s, a);
      NoOverrunPrefix(s.arrived, Apply(cfg, s, a).arrived);
      JobsOfPrefix(s.arrived, Apply(cfg, s, a).arrived);
      RunQuota(cfg, cpus, actions[..|actions| - 1]);
      if a.c < |s.cpus| {
        if a.Arrive? {
          ReceiveKeepsQuota(cfg, s, a.c, a.p);
        } else {
          ExecKeepsQuota(cfg, s, a.c);
        }
      }
    }
  }

  // ----------------------------------------------------------------- main results

  /** No decrement ever meets a zero counter: it cannot wrap below zero, and the guard never skips one. */
  lemma NeverUnderflows(cfg: X.Config, cpus: nat, actions: seq<Action>, c: nat)
    requires NoOverrun(Run(cfg, cpus, actions).arrived) && RoomForJobs(cfg, cpus, Run(cfg, cpus, actions).arrived)
    requires c < cpus && Closed(Run(cfg, cpus, actions).cpus[c])
    ensures var s := Run(cfg, cpus, actions);
            var j := s.cpus[c].p.key.job;
            j in s.jobs && s.jobs[j] > 0
  {
    RunQuota(cfg, cpus, actions);
    CounterRange(cfg, Run(cfg, cpus, actions), c);
  }

  /** Whenever no CPU is mid-packet, every job's counter is the number of its slot_map entries. */
  lemma QuiescentCountersExact(cfg: X.Config, cpus: nat, actions: seq<Action>, job: u32)
    requires NoOverrun(Run(cfg, cpus, actions).arrived) && RoomForJobs(cfg, cpus, Run(cfg, cpus, actions).arrived)
    requires Quiescent(Run(cfg, cpus, actions))
    ensures var s := Run(cfg, cpus, actions);
            X.Charge(s.jobs, job) == |LiveKeys(s.slotMap, job)|
  {
    RunQuota(cfg, cpus, actions);
    var s := Run(cfg, cpus, actions);
    assert Balanced(s, job);
    assert Owing(s.cpus, Increment, job) == {} && Owing(s.cpus, Decrement, job) == {};
  }

  // ------------------------------------------------------------------- the quota

  /** Counted, uncounted and admitted slots together: each other CPU can be at most one slot past the check. */
  ghost predicate WithinQuota(cfg: X.Config, s: State, job: u32) {
    X.Charge(s.jobs, job) + |Owing(s.cpus, Increment, job)| + |Owing(s.cpus, Creation, job)| <= cfg.quota + |s.cpus| - 1
  }

  lemma OthersOweOneEach(s: State, c: nat, job: u32)
    requires c < |s.cpus| && !Owes(s.cpus[c], Increment, job) && !Owes(s.cpus[c], Creation, job)
    ensures |Owing(s.cpus, Increment, job)| + |Owing(s.cpus, Creation, job)| <= |s.cpus| - 1
  {
    var a, b := Owing(s.cpus, Increment, job), Owing(s.cpus, Creation, job);
    assert a !! b;
    assert |a + b| == |a| + |b|;
    WithoutOne(a + b + {c}, c);
    assert (a + b + {c}) - {c} == a + b;
    CpusBelow(a + b + {c}, |s.cpus|);
  }

  lemma AdmitKeepsWithinQuota(cfg: X.Config, s: State, c: nat, job: u32)
    requires At(s, c, Admit) && WithinQuota(cfg, s, job) && cfg.populated && cfg.quota >= 1
    ensures WithinQuota(cfg, DoAdmit(cfg, s, c), job)
  {
    var s' := DoAdmit(cfg, s, c);
    OwingUpdate(s.cpus, c, s'.cpus[c], Increment, job);
    OwingUpdate(s.cpus, c, s'.cpus[c], Creation, job);
    OthersOweOneEach(s, c, job);
  }

  lemma MoveKeepsWithinQuota(cfg: X.Config, s: State, s': State, c: nat, live: int, counter: int, job: u32)
    requires c < |s.cpus| && |s'.cpus| == |s.cpus| && Moves(s, s', c, live, counter) && !s.cpus[c].pc.Admit?
    requires WithinQuota(cfg, s, job)
    ensures WithinQuota(cfg, s', job)
  {
    OwingUpdate(s.cpus, c, s'.cpus[c], Increment, job);
    OwingUpdate(s.cpus, c, s'.cpus[c], Creation, job);
  }

  lemma ExecKeepsWithinQuota(cfg: X.Config, s: State, c: nat, job: u32)
    requires Orderly(s) && QuotaInv(cfg, s) && RoomForJobs(cfg, |s.cpus|, s.arrived) && c < |s.cpus|
    requires WithinQuota(cfg, s, job) && cfg.populated && cfg.quota >= 1
    ensures WithinQuota(cfg, Exec(cfg, s, c), job)
  {
    if s.cpus[c].pc.Admit? {
      AdmitKeepsWithinQuota(cfg, s, c, job);
    } else if !s.cpus[c].pc.Idle? {
      var live, counter := StepMoves(cfg, s, c);
      MoveKeepsWithinQuota(cfg, s, Exec(cfg, s, c), c, live, counter, job);
    }
  }

  lemma ReceiveKeepsWithinQuota(cfg: X.Config, s: State, c: nat, p: Packet, job: u32)
    requires PointersOk(s) && c < |s.cpus| && WithinQuota(cfg, s, job)
    ensures WithinQuota(cfg, Receive(s, c, p), job)
  {
    var s' := Receive(s, c, p);
    OwingUpdate(s.cpus, c, s'.cpus[c], Increment, job);
    OwingUpdate(s.cpus, c, s'.cpus[c], Creation, job);
    assert s.cpus == s.cpus[c := s.cpus[c]];
  }

  lemma {:induction false} RunWithinQuota(cfg: X.Config, cpus: nat, actions: seq<Action>, job: u32)
    requires NoOverrun(Run(cfg, cpus, actions).arrived) && RoomForJobs(cfg, cpus, Run(cfg, cpus, actions).arrived)
    requires cpus >= 1 && cfg.populated && cfg.quota >= 1
    ensures WithinQuota(cfg, Run(cfg, cpus, actions), job)
  {
    if actions == [] {
      var s := Boot(cpus);
      assert Owing(s.cpus, Increment, job) == {} && Owing(s.cpus, Creation, job) == {};
    } else {
      var s, a := Run(cfg, cpus, actions[..|actions| - 1]), actions[|actions| - 1];
      ApplyGrowsStream(cfg, s, a);
      NoOverrunPrefix(s.arrived, Apply(cfg, s, a).arrived);
      JobsOfPrefix(s.arrived, Apply(cfg, s, a).arrived);
      RunWithinQuota(cfg, cpus, actions[..|actions| - 1], job);
      RunQuota(cfg, cpus, actions[..|actions| - 1]);
      if a.c < |s.cpus| {
        if a.Arrive? {
          ReceiveKeepsWithinQuota(cfg, s, a.c, a.p, job);
        } else {
          ExecKeepsWithinQuota(cfg, s, a.c, job);
        }
      }
    }
  }

  /**
   Check and increment are separate steps, so the quota can be overshot, by at
   most one slot per other CPU: exact on a single CPU.
   */
  lemma QuotaOvershootBound(cfg: X.Config, cpus: nat, actions: seq<Action>, job: u32)
    requires NoOverrun(Run(cfg, cpus, actions).arrived) && RoomForJobs(cfg, cpus, Run(cfg, cpus, actions).arrived)
    requires cpus >= 1 && cfg.populated && cfg.quota >= 1
    ensures var s := Run(cfg, cpus, actions);
            && X.Charge(s.jobs, job) <= cfg.quota + cpus - 1
            && |LiveKeys(s.slotMap, job)| <= cfg.quota + cpus - 1
  {
    RunQuota(cfg, cpus, actions);
    RunWithinQuota(cfg, cpus, actions, job);
    assert Balanced(Run(cfg, cpus, actions), job);
  }
}
