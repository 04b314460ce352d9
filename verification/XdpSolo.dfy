/**
 The concurrent machine run one packet at a time is the sequential program: from
 a quiescent state a single CPU's steps have the effect and the verdict of
 XdpProgram.Step, whichever CPU takes the packet.
 */
module XdpSolo {
  import opened GradProto
  import opened SeenBitmap
  import opened XdpMachine
  import opened XdpSafety
  import opened XdpGuarantees
  import opened XdpProgress
  import X = XdpProgram

  /** The maps as the sequential program sees them. */
  ghost function View(s: State): X.Maps
    requires PointersOk(s)
  {
    X.Maps(map k | k in s.slotMap :: s.heap[s.slotMap[k]].slot, s.jobs)
  }

  ghost predicate SameVerdict(v: Verdict, x: X.Verdict) {
    match x
    case Drop => !v.Tx?
    case Tx(key, values) => v.Tx? && v.p.key == key && v.values == values
  }

  function Repeat<T>(f: T -> T, x: T, n: nat): T {
    if n == 0 then x else Repeat(f, f(x), n - 1)
  }

  lemma {:induction false} RepeatAdd<T>(f: T -> T, x: T, m: nat, n: nat)
    ensures Repeat(f, x, m + n) == Repeat(f, Repeat(f, x, m), n)
  {
    if m > 0 {
      RepeatAdd(f, f(x), m - 1, n);
    }
  }

  lemma {:induction false} FixedStays<T>(f: T -> T, x: T, n: nat)
    requires f(x) == x
    ensures Repeat(f, x, n) == x
  {
    if n > 0 {
      FixedStays(f, x, n - 1);
    }
  }

  lemma RepeatStays<T>(f: T -> T, x: T, m: nat, n: nat)
    requires m <= n && f(Repeat(f, x, m)) == Repeat(f, x, m)
    ensures Repeat(f, x, n) == Repeat(f, x, m)
  {
    RepeatAdd(f, x, m, n - m);
    FixedStays(f, Repeat(f, x, m), n - m);
  }

  lemma {:induction false} RepeatInvariant<T(!new)>(f: T -> T, inv: T -> bool, x: T, n: nat)
    requires inv(x) && forall y :: inv(y) ==> inv(f(y))
    ensures inv(Repeat(f, x, n))
  {
    if n > 0 {
      RepeatInvariant(f, inv, f(x), n - 1);
    }
  }

  ghost function Always<S, A>(g: (S, A) -> S, a: A): S -> S {
    (s: S) => g(s, a)
  }

  function Same<A>(a: A, n: nat): seq<A> {
    if n == 0 then [] else [a] + Same(a, n - 1)
  }

  /** Doing the same `n` times over. */
  lemma {:induction false} FoldSame<S, A>(g: (S, A) -> S, s: S, a: A, n: nat)
    ensures Fold(g, s, Same(a, n)) == Repeat(Always(g, a), s, n)
  {
    if n > 0 {
      assert Same(a, n)[1..] == Same(a, n - 1);
      FoldSame(g, g(s, a), a, n - 1);
      assert Always(g, a)(s) == g(s, a);
    }
  }

  ghost function Alone(cfg: X.Config, c: nat): State -> State {
    Always(Applying(cfg), Go(c))
  }

  lemma AloneExecs(cfg: X.Config, c: nat, s: State)
    requires PointersOk(s) && c < |s.cpus|
    ensures Alone(cfg, c)(s) == Exec(cfg, s, c)
  {
  }

  /** CPU `c` alone takes the machine from `s` to `t`. */
  ghost predicate Leads(cfg: X.Config, c: nat, s: State, t: State) {
    exists n: nat :: Repeat(Alone(cfg, c), s, n) == t
  }

  lemma LeadsOne(cfg: X.Config, c: nat, s: State, t: State)
    requires PointersOk(s) && c < |s.cpus| && Exec(cfg, s, c) == t
    ensures Leads(cfg, c, s, t)
  {
    var f := Alone(cfg, c);
    assert f(s) == t;
    assert Repeat(f, t, 0) == t;
    assert Repeat(f, s, 1) == t;
  }

  lemma LeadsHere(cfg: X.Config, c: nat, s: State)
    ensures Leads(cfg, c, s, s)
  {
    assert Repeat(Alone(cfg, c), s, 0) == s;
  }

  lemma LeadsOn(cfg: X.Config, c: nat, s: State, t: State, u: State)
    requires Leads(cfg, c, s, t) && Leads(cfg, c, t, u)
    ensures Leads(cfg, c, s, u)
  {
    var m: nat :| Repeat(Alone(cfg, c), s, m) == t;
    var n: nat :| Repeat(Alone(cfg, c), t, n) == u;
    RepeatAdd(Alone(cfg, c), s, m, n);
  }

  // ------------------------------------------------------- states in the middle of it

  /** CPU `c` has got as far as `u`, and instance `r` is now `i`. */
  ghost function Local(s: State, c: nat, r: nat, i: Instance, u: Cpu): State
    requires c < |s.cpus| && r < |s.heap|
  {
    s.(heap := s.heap[r := i], cpus := s.cpus[c := u])
  }

  ghost predicate Sane(s: State, c: nat, r: nat, i: Instance, u: Cpu) {
    && PointersOk(s) && c < |s.cpus| && r < |s.heap|
    && u.ref == r && Bounded(u.p) && |u.buf| == |u.p.values| && |i.slot.sum| == MAX_CHUNK_LEN
  }

  lemma LocalPointers(s: State, c: nat, r: nat, i: Instance, u: Cpu)
    requires Sane(s, c, r, i, u)
    ensures PointersOk(Local(s, c, r, i, u)) && CpuShape(u, |s.heap|)
    ensures Local(s, c, r, i, u).cpus[c] == u && Local(s, c, r, i, u).heap[r] == i
  {
  }

  lemma LocalPut(s: State, c: nat, r: nat, i: Instance, u: Cpu, i': Instance, u': Cpu)
    requires Sane(s, c, r, i, u)
    ensures Put(PutSlot(Local(s, c, r, i, u), r, i'), c, u') == Local(s, c, r, i', u')
    ensures Put(Local(s, c, r, i, u), c, u') == Local(s, c, r, i, u')
  {
    assert s.heap[r := i][r := i'] == s.heap[r := i'];
    assert s.cpus[c := u][c := u'] == s.cpus[c := u'];
  }

  /** A step whose effect is known, as a step between mid-packet states. */
  lemma Advance(cfg: X.Config, s: State, c: nat, r: nat, i: Instance, u: Cpu, i': Instance, u': Cpu)
    requires Sane(s, c, r, i, u) && PointersOk(Local(s, c, r, i, u))
    requires Exec(cfg, Local(s, c, r, i, u), c) == Put(PutSlot(Local(s, c, r, i, u), r, i'), c, u')
    ensures Leads(cfg, c, Local(s, c, r, i, u), Local(s, c, r, i', u'))
  {
    LocalPut(s, c, r, i, u, i', u');
    LeadsOne(cfg, c, Local(s, c, r, i, u), Local(s, c, r, i', u'));
  }

  // ------------------------------------------------------------------- the two loops

  /** The accumulator with the lanes below `upto` added. */
  ghost function AddedUpTo(sum: seq<i32>, p: Packet, upto: nat): seq<i32> {
    seq(|sum|, k requires 0 <= k < |sum| => if k < upto then Wrap(sum[k] + Lane(p, k)) else sum[k])
  }

  lemma AddedNone(sum: seq<i32>, p: Packet)
    ensures AddedUpTo(sum, p, 0) == sum
  {
  }

  lemma AddedAll(sum: seq<i32>, p: Packet)
    requires |p.values| <= |sum|
    ensures AddedUpTo(sum, p, |p.values|) == Accumulate(sum, p)
  {
    forall k | |p.values| <= k < |sum| ensures Wrap(sum[k] + Lane(p, k)) == sum[k] {
      WrapInRange(sum[k]);
    }
  }

  lemma OneLaneMore(sum: seq<i32>, p: Packet, lane: nat)
    requires lane < |p.values| && lane < |sum|
    ensures var a := AddedUpTo(sum, p, lane);
            a[lane := Wrap(a[lane] as int + p.values[lane])] == AddedUpTo(sum, p, lane + 1)
  {
  }

  ghost function WithSum(i: Instance, sum: seq<i32>): Instance {
    i.(slot := i.slot.(sum := sum))
  }

  /** One round of the accumulate loop from a mid-packet state. */
  lemma AddRound(cfg: X.Config, s: State, c: nat, r: nat, i: Instance, u: Cpu, sum: seq<i32>)
    requires Sane(s, c, r, i, u) && u.pc.Add? && u.lane < |u.p.values|
    requires |sum| == MAX_CHUNK_LEN && i.slot.sum == AddedUpTo(sum, u.p, u.lane)
    ensures Leads(cfg, c, Local(s, c, r, i, u), Local(s, c, r, WithSum(i, AddedUpTo(sum, u.p, u.lane + 1)), u.(lane := u.lane + 1)))
  {
    LocalPointers(s, c, r, i, u);
    OneLaneMore(sum, u.p, u.lane);
    Advance(cfg, s, c, r, i, u, AddingLane(i, u.p, u.lane), u.(lane := u.lane + 1));
  }

  lemma {:induction false} AddLoop(cfg: X.Config, s: State, c: nat, r: nat, i: Instance, u: Cpu, sum: seq<i32>)
    requires Sane(s, c, r, i, u) && u.pc.Add? && u.lane <= |u.p.values|
    requires |sum| == MAX_CHUNK_LEN && i.slot.sum == AddedUpTo(sum, u.p, u.lane)
    ensures Leads(cfg, c, Local(s, c, r, i, u), Local(s, c, r, WithSum(i, Accumulate(sum, u.p)), u.(lane := |u.p.values|)))
    decreases |u.p.values| - u.lane
  {
    if u.lane == |u.p.values| {
      AddedAll(sum, u.p);
      LeadsHere(cfg, c, Local(s, c, r, i, u));
    } else {
      var j, v := WithSum(i, AddedUpTo(sum, u.p, u.lane + 1)), u.(lane := u.lane + 1);
      AddRound(cfg, s, c, r, i, u, sum);
      AddLoop(cfg, s, c, r, j, v, sum);
      LeadsOn(cfg, c, Local(s, c, r, i, u), Local(s, c, r, j, v),
              Local(s, c, r, WithSum(i, Accumulate(sum, u.p)), u.(lane := |u.p.values|)));
    }
  }

  /** The payload with the lanes below `upto` replaced by the sum's. */
  ghost function WrittenUpTo(buf: seq<i32>, sum: seq<i32>, upto: nat): seq<i32>
    requires |buf| <= |sum|
  {
    seq(|buf|, k requires 0 <= k < |buf| => if k < upto then sum[k] else buf[k])
  }

  ghost function WithBuf(u: Cpu, buf: seq<i32>, lane: nat): Cpu {
    u.(buf := buf, lane := lane)
  }

  lemma WriteRound(cfg: X.Config, s: State, c: nat, r: nat, i: Instance, u: Cpu, buf: seq<i32>)
    requires Sane(s, c, r, i, u) && u.pc.WriteBack? && u.lane < |u.buf| == i.slot.chunkLen == |buf|
    requires u.buf == WrittenUpTo(buf, i.slot.sum, u.lane)
    ensures Leads(cfg, c, Local(s, c, r, i, u), Local(s, c, r, i, WithBuf(u, WrittenUpTo(buf, i.slot.sum, u.lane + 1), u.lane + 1)))
  {
    LocalPointers(s, c, r, i, u);
    SameHeap(Local(s, c, r, i, u), r);
    assert u.buf[u.lane := i.slot.sum[u.lane]] == WrittenUpTo(buf, i.slot.sum, u.lane + 1);
    Advance(cfg, s, c, r, i, u, i, WithBuf(u, WrittenUpTo(buf, i.slot.sum, u.lane + 1), u.lane + 1));
  }

  lemma {:induction false} WriteLoop(cfg: X.Config, s: State, c: nat, r: nat, i: Instance, u: Cpu, buf: seq<i32>)
    requires Sane(s, c, r, i, u) && u.pc.WriteBack? && u.lane <= |u.buf| == i.slot.chunkLen == |buf|
    requires u.buf == WrittenUpTo(buf, i.slot.sum, u.lane)
    ensures Leads(cfg, c, Local(s, c, r, i, u), Local(s, c, r, i, WithBuf(u, i.slot.sum[..i.slot.chunkLen], |buf|)))
    decreases |u.buf| - u.lane
  {
    if u.lane == |u.buf| {
      assert WrittenUpTo(buf, i.slot.sum, u.lane) == i.slot.sum[..i.slot.chunkLen];
      LeadsHere(cfg, c, Local(s, c, r, i, u));
    } else {
      var v := WithBuf(u, WrittenUpTo(buf, i.slot.sum, u.lane + 1), u.lane + 1);
      WriteRound(cfg, s, c, r, i, u, buf);
      WriteLoop(cfg, s, c, r, i, v, buf);
      LeadsOn(cfg, c, Local(s, c, r, i, u), Local(s, c, r, i, v), Local(s, c, r, i, WithBuf(u, i.slot.sum[..i.slot.chunkLen], |buf|)));
    }
  }

  // ------------------------------------------------------------ the locked region

  lemma TakeLock(cfg: X.Config, s: State, c: nat, r: nat, i: Instance, u: Cpu)
    requires Sane(s, c, r, i, u) && u.pc.Lock? && i.lock.None?
    ensures Leads(cfg, c, Local(s, c, r, i, u), Local(s, c, r, i.(lock := Some(c)), u.(pc := Check, done := false)))
  {
    LocalPointers(s, c, r, i, u);
    Advance(cfg, s, c, r, i, u, i.(lock := Some(c)), u.(pc := Check, done := false));
  }

  lemma RejectStep(cfg: X.Config, s: State, c: nat, r: nat, i: Instance, u: Cpu)
    requires Sane(s, c, r, i, u) && u.pc.Check? && !Acceptable(i, u.p)
    ensures Leads(cfg, c, Local(s, c, r, i, u), Local(s, c, r, i, u.(pc := Unlock)))
  {
    LocalPointers(s, c, r, i, u);
    SameHeap(Local(s, c, r, i, u), r);
    Advance(cfg, s, c, r, i, u, i, u.(pc := Unlock));
  }

  lemma AcceptStep(cfg: X.Config, s: State, c: nat, r: nat, i: Instance, u: Cpu)
    requires Sane(s, c, r, i, u) && u.pc.Check? && Acceptable(i, u.p)
    ensures Leads(cfg, c, Local(s, c, r, i, u), Local(s, c, r, Accepting(i, u.p), u.(pc := Add, lane := 0)))
  {
    LocalPointers(s, c, r, i, u);
    Advance(cfg, s, c, r, i, u, Accepting(i, u.p), u.(pc := Add, lane := 0));
  }

  lemma ToCount(cfg: X.Config, s: State, c: nat, r: nat, i: Instance, u: Cpu)
    requires Sane(s, c, r, i, u) && u.pc.Add? && u.lane == |u.p.values|
    ensures Leads(cfg, c, Local(s, c, r, i, u), Local(s, c, r, i, u.(pc := Count)))
  {
    LocalPointers(s, c, r, i, u);
    SameHeap(Local(s, c, r, i, u), r);
    Advance(cfg, s, c, r, i, u, i, u.(pc := Count));
  }

  lemma CountStep(cfg: X.Config, s: State, c: nat, r: nat, i: Instance, u: Cpu)
    requires Sane(s, c, r, i, u) && u.pc.Count? && Counting(i).slot.received != i.slot.expected
    ensures Leads(cfg, c, Local(s, c, r, i, u), Local(s, c, r, Counting(i), u.(pc := Unlock)))
  {
    LocalPointers(s, c, r, i, u);
    Advance(cfg, s, c, r, i, u, Counting(i), u.(pc := Unlock));
  }

  /** Completion, logged. */
  lemma CompleteStep(cfg: X.Config, s: State, c: nat, r: nat, i: Instance, u: Cpu)
    requires Sane(s, c, r, i, u) && u.pc.Count? && Counting(i).slot.received == i.slot.expected
    ensures Leads(cfg, c, Local(s, c, r, i, u),
                  Local(s.(completed := s.completed + [r]), c, r, Counting(i).(closer := Some(c)), u.(pc := WriteBack, lane := 0, done := true)))
  {
    var i', u' := Counting(i).(closer := Some(c)), u.(pc := WriteBack, lane := 0, done := true);
    LocalPointers(s, c, r, i, u);
    LocalPut(s, c, r, i, u, i', u');
    LeadsOne(cfg, c, Local(s, c, r, i, u), Local(s.(completed := s.completed + [r]), c, r, i', u'));
  }

  /** From the check to the completion test: the contribution as the sequential program sees it. */
  lemma Absorb(cfg: X.Config, s: State, c: nat, r: nat, i: Instance, u: Cpu)
    requires Sane(s, c, r, i, u) && u.pc.Check? && Acceptable(i, u.p)
    ensures Leads(cfg, c, Local(s, c, r, i, u),
                  Local(s, c, r, WithSum(Accepting(i, u.p), Accumulate(i.slot.sum, u.p)), u.(pc := Count, lane := |u.p.values|)))
  {
    var i1, u1 := Accepting(i, u.p), u.(pc := Add, lane := 0);
    var i2, u2 := WithSum(i1, Accumulate(i.slot.sum, u.p)), u1.(lane := |u.p.values|);
    AcceptStep(cfg, s, c, r, i, u);
    AddedNone(i.slot.sum, u.p);
    AddLoop(cfg, s, c, r, i1, u1, i.slot.sum);
    ToCount(cfg, s, c, r, i2, u2);
    LeadsOn(cfg, c, Local(s, c, r, i, u), Local(s, c, r, i1, u1), Local(s, c, r, i2, u2));
    LeadsOn(cfg, c, Local(s, c, r, i, u), Local(s, c, r, i2, u2), Local(s, c, r, i2, u2.(pc := Count)));
  }

  lemma AbsorbedSlot(i: Instance, p: Packet)
    requires p.worker < MAX_WORKERS
    ensures Counting(WithSum(Accepting(i, p), Accumulate(i.slot.sum, p))).slot == X.Accumulated(i.slot, p)
  {
  }

  // ------------------------------------------------------------- leaving the slot

  lemma DropOut(cfg: X.Config, s: State, c: nat, r: nat, i: Instance, u: Cpu)
    requires Sane(s, c, r, i, u) && u.pc.Unlock? && !u.done
    ensures Leads(cfg, c, Local(s, c, r, i, u), Local(s.(log := s.log + [Drop(u.p)]), c, r, i.(lock := None), u.(pc := Idle)))
  {
    LocalPointers(s, c, r, i, u);
    LocalPut(s, c, r, i, u, i.(lock := None), u.(pc := Idle));
    LeadsOne(cfg, c, Local(s, c, r, i, u), Local(s.(log := s.log + [Drop(u.p)]), c, r, i.(lock := None), u.(pc := Idle)));
  }

  lemma ToReadConfig(cfg: X.Config, s: State, c: nat, r: nat, i: Instance, u: Cpu)
    requires Sane(s, c, r, i, u) && u.pc.Unlock? && u.done
    ensures Leads(cfg, c, Local(s, c, r, i, u), Local(s, c, r, i.(lock := None), u.(pc := ReadConfig)))
  {
    LocalPointers(s, c, r, i, u);
    Advance(cfg, s, c, r, i, u, i.(lock := None), u.(pc := ReadConfig));
  }

  lemma ToDelete(cfg: X.Config, s: State, c: nat, r: nat, i: Instance, u: Cpu)
    requires Sane(s, c, r, i, u) && u.pc.ReadConfig?
    ensures Leads(cfg, c, Local(s, c, r, i, u), Local(s, c, r, i, u.(pc := Delete)))
  {
    LocalPointers(s, c, r, i, u);
    SameHeap(Local(s, c, r, i, u), r);
    Advance(cfg, s, c, r, i, u, i, u.(pc := Delete));
  }

  lemma DeleteStep(cfg: X.Config, s: State, c: nat, r: nat, i: Instance, u: Cpu)
    requires Sane(s, c, r, i, u) && u.pc.Delete? && Mapped(s, u.p.key, r)
    ensures Leads(cfg, c, Local(s, c, r, i, u),
                  Local(s.(slotMap := s.slotMap - {u.p.key}), c, r, i.(removed := true), u.(pc := DecLookup)))
  {
    var s' := s.(slotMap := s.slotMap - {u.p.key});
    LocalPointers(s, c, r, i, u);
    LocalPut(s, c, r, i, u, i.(removed := true), u.(pc := DecLookup));
    LeadsOne(cfg, c, Local(s, c, r, i, u), Local(s', c, r, i.(removed := true), u.(pc := DecLookup)));
  }

  ghost function Discounted(cfg: X.Config, s: State, u: Cpu): State {
    s.(jobs := X.Decrement(s.jobs, u.p.key.job), log := s.log + [Outcome(cfg, u)])
  }

  /** The guard finds nothing to take. */
  lemma DecLookupSkips(cfg: X.Config, s: State, c: nat, r: nat, i: Instance, u: Cpu)
    requires Sane(s, c, r, i, u) && u.pc.DecLookup? && !(u.p.key.job in s.jobs && s.jobs[u.p.key.job] > 0)
    ensures Leads(cfg, c, Local(s, c, r, i, u), Local(Discounted(cfg, s, u), c, r, i, u.(pc := Idle)))
  {
    LocalPointers(s, c, r, i, u);
    LocalPut(s, c, r, i, u, i, u.(pc := Idle));
    LeadsOne(cfg, c, Local(s, c, r, i, u), Local(Discounted(cfg, s, u), c, r, i, u.(pc := Idle)));
  }

  lemma DecLookupGoesOn(cfg: X.Config, s: State, c: nat, r: nat, i: Instance, u: Cpu)
    requires Sane(s, c, r, i, u) && u.pc.DecLookup? && u.p.key.job in s.jobs && s.jobs[u.p.key.job] > 0
    ensures Leads(cfg, c, Local(s, c, r, i, u), Local(s, c, r, i, u.(pc := DecAdd)))
  {
    LocalPointers(s, c, r, i, u);
    LocalPut(s, c, r, i, u, i, u.(pc := DecAdd));
    LeadsOne(cfg, c, Local(s, c, r, i, u), Local(s, c, r, i, u.(pc := DecAdd)));
  }

  /** job_quota_decrement without interference is the sequential one. */
  lemma Discount(cfg: X.Config, s: State, c: nat, r: nat, i: Instance, u: Cpu)
    requires Sane(s, c, r, i, u) && u.pc.DecLookup?
    ensures Leads(cfg, c, Local(s, c, r, i, u), Local(Discounted(cfg, s, u), c, r, i, u.(pc := Idle)))
  {
    if u.p.key.job in s.jobs && s.jobs[u.p.key.job] > 0 {
      var v := u.(pc := DecAdd);
      DecLookupGoesOn(cfg, s, c, r, i, u);
      DecAddStep(cfg, s, c, r, i, v);
      LeadsOn(cfg, c, Local(s, c, r, i, u), Local(s, c, r, i, v), Local(Discounted(cfg, s, u), c, r, i, u.(pc := Idle)));
    } else {
      DecLookupSkips(cfg, s, c, r, i, u);
    }
  }

  lemma DecAddStep(cfg: X.Config, s: State, c: nat, r: nat, i: Instance, u: Cpu)
    requires Sane(s, c, r, i, u) && u.pc.DecAdd? && u.p.key.job in s.jobs && s.jobs[u.p.key.job] > 0
    ensures Leads(cfg, c, Local(s, c, r, i, u), Local(Discounted(cfg, s, u), c, r, i, u.(pc := Idle)))
  {
    LocalPointers(s, c, r, i, u);
    LocalPut(s, c, r, i, u, i, u.(pc := Idle));
    LeadsOne(cfg, c, Local(s, c, r, i, u), Local(Discounted(cfg, s, u), c, r, i, u.(pc := Idle)));
  }

  lemma ToUnlock(cfg: X.Config, s: State, c: nat, r: nat, i: Instance, u: Cpu)
    requires Sane(s, c, r, i, u) && u.pc.WriteBack? && u.lane == |u.buf|
    ensures Leads(cfg, c, Local(s, c, r, i, u), Local(s, c, r, i, u.(pc := Unlock)))
  {
    LocalPointers(s, c, r, i, u);
    SameHeap(Local(s, c, r, i, u), r);
    Advance(cfg, s, c, r, i, u, i, u.(pc := Unlock));
  }

  /** From the unlock to the delete. */
  lemma LeaveMap(cfg: X.Config, s: State, c: nat, r: nat, i: Instance, u: Cpu)
    requires Sane(s, c, r, i, u) && u.pc.Unlock? && u.done && Mapped(s, u.p.key, r)
    ensures Leads(cfg, c, Local(s, c, r, i, u),
                  Local(s.(slotMap := s.slotMap - {u.p.key}), c, r, i.(lock := None, removed := true), u.(pc := DecLookup)))
  {
    var i1, u1 := i.(lock := None), u.(pc := ReadConfig);
    ToReadConfig(cfg, s, c, r, i, u);
    var u2 := u.(pc := Delete);
    ToDelete(cfg, s, c, r, i1, u1);
    LeadsOn(cfg, c, Local(s, c, r, i, u), Local(s, c, r, i1, u1), Local(s, c, r, i1, u2));
    DeleteStep(cfg, s, c, r, i1, u2);
    LeadsOn(cfg, c, Local(s, c, r, i, u), Local(s, c, r, i1, u2),
            Local(s.(slotMap := s.slotMap - {u.p.key}), c, r, i1.(removed := true), u.(pc := DecLookup)));
  }

  /** From the completion test to the unlock. */
  lemma WriteOut(cfg: X.Config, s: State, c: nat, r: nat, i: Instance, u: Cpu)
    requires Sane(s, c, r, i, u) && u.pc.WriteBack? && u.lane == 0 && |u.buf| == i.slot.chunkLen
    ensures Leads(cfg, c, Local(s, c, r, i, u), Local(s, c, r, i, WithBuf(u, i.slot.sum[..i.slot.chunkLen], |u.buf|).(pc := Unlock)))
  {
    var u1 := WithBuf(u, i.slot.sum[..i.slot.chunkLen], |u.buf|);
    assert u.buf == WrittenUpTo(u.buf, i.slot.sum, 0);
    WriteLoop(cfg, s, c, r, i, u, u.buf);
    ToUnlock(cfg, s, c, r, i, u1);
    LeadsOn(cfg, c, Local(s, c, r, i, u), Local(s, c, r, i, u1), Local(s, c, r, i, u1.(pc := Unlock)));
  }

  /** From the completion test to the delete: the counters are untouched so far. */
  lemma TearDownMap(cfg: X.Config, s: State, c: nat, r: nat, i: Instance, u: Cpu) returns (s': State, i': Instance, u': Cpu)
    requires Sane(s, c, r, i, u) && u.pc.WriteBack? && u.lane == 0 && u.done && |u.buf| == i.slot.chunkLen && Mapped(s, u.p.key, r)
    ensures Sane(s', c, r, i', u') && Leads(cfg, c, Local(s, c, r, i, u), Local(s', c, r, i', u')) && u'.pc.DecLookup? && u'.p == u.p
    ensures s' == s.(slotMap := s.slotMap - {u.p.key}) && i' == i.(lock := None, removed := true) && u'.buf == i.slot.sum[..i.slot.chunkLen]
  {
    var u1 := WithBuf(u, i.slot.sum[..i.slot.chunkLen], |u.buf|).(pc := Unlock);
    WriteOut(cfg, s, c, r, i, u);
    LeaveMap(cfg, s, c, r, i, u1);
    s', i', u' := s.(slotMap := s.slotMap - {u.p.key}), i.(lock := None, removed := true), u1.(pc := DecLookup);
    LeadsOn(cfg, c, Local(s, c, r, i, u), Local(s, c, r, i, u1), Local(s', c, r, i', u'));
  }

  /** From the completion test to the verdict. */
  lemma TearDown(cfg: X.Config, s: State, c: nat, r: nat, i: Instance, u: Cpu) returns (t: State)
    requires Sane(s, c, r, i, u) && u.pc.WriteBack? && u.lane == 0 && u.done && |u.buf| == i.slot.chunkLen && Mapped(s, u.p.key, r)
    ensures Leads(cfg, c, Local(s, c, r, i, u), t)
    ensures t.slotMap == s.slotMap - {u.p.key} && t.heap == s.heap[r := i.(lock := None, removed := true)]
    ensures t.jobs == X.Decrement(s.jobs, u.p.key.job) && |t.cpus| == |s.cpus| && t.cpus == s.cpus[c := t.cpus[c]] && t.cpus[c].pc.Idle?
    ensures t.log == s.log + [if cfg.populated then Tx(u.p, r, i.slot.sum[..i.slot.chunkLen]) else Drop(u.p)]
  {
    var s3, i3, u3 := TearDownMap(cfg, s, c, r, i, u);
    t := Local(Discounted(cfg, s3, u3), c, r, i3, u3.(pc := Idle));
    Discount(cfg, s3, c, r, i3, u3);
    LeadsOn(cfg, c, Local(s, c, r, i, u), Local(s3, c, r, i3, u3), t);
  }

  // -------------------------------------------------- one contribution, start to end

  lemma AloneKeepsSafe(cfg: X.Config, c: nat, s: State)
    requires Safe(s) && c < |s.cpus|
    ensures Safe(Alone(cfg, c)(s)) && |Alone(cfg, c)(s).cpus| == |s.cpus|
  {
    ExecKeepsSafe(cfg, s, c);
  }

  lemma RepeatKeeps(cfg: X.Config, c: nat, s: State, n: nat)
    requires Safe(s) && c < |s.cpus|
    ensures Safe(Repeat(Alone(cfg, c), s, n)) && |Repeat(Alone(cfg, c), s, n).cpus| == |s.cpus|
  {
    var inv := (t: State) => Safe(t) && |t.cpus| == |s.cpus|;
    forall t | inv(t) ensures inv(Alone(cfg, c)(t)) {
      AloneKeepsSafe(cfg, c, t);
    }
    RepeatInvariant(Alone(cfg, c), inv, s, n);
  }

  lemma LeadsKeepsSafe(cfg: X.Config, c: nat, s: State, t: State)
    requires Safe(s) && c < |s.cpus| && Leads(cfg, c, s, t)
    ensures Safe(t) && |t.cpus| == |s.cpus|
  {
    var n: nat :| Repeat(Alone(cfg, c), s, n) == t;
    RepeatKeeps(cfg, c, s, n);
  }

  lemma AloneKeepsArrived(cfg: X.Config, c: nat, s: State)
    requires PointersOk(s) && c < |s.cpus|
    ensures var t := Alone(cfg, c)(s); PointersOk(t) && |t.cpus| == |s.cpus| && t.arrived == s.arrived
  {
    assert Follows(s, Exec(cfg, s, c), c) && Sound(s, Exec(cfg, s, c));
  }

  lemma RepeatKeepsArrived(cfg: X.Config, c: nat, s: State, n: nat)
    requires PointersOk(s) && c < |s.cpus|
    ensures var t := Repeat(Alone(cfg, c), s, n); PointersOk(t) && |t.cpus| == |s.cpus| && t.arrived == s.arrived
  {
    var inv := (t: State) => PointersOk(t) && |t.cpus| == |s.cpus| && t.arrived == s.arrived;
    forall t | inv(t) ensures inv(Alone(cfg, c)(t)) {
      AloneKeepsArrived(cfg, c, t);
    }
    RepeatInvariant(Alone(cfg, c), inv, s, n);
  }

  lemma LeadsKeepsArrived(cfg: X.Config, c: nat, s: State, t: State)
    requires PointersOk(s) && c < |s.cpus| && Leads(cfg, c, s, t)
    ensures t.arrived == s.arrived
  {
    var n: nat :| Repeat(Alone(cfg, c), s, n) == t;
    RepeatKeepsArrived(cfg, c, s, n);
  }

  ghost predicate OnlyKey(s: State, key: Key, r: nat) {
    Mapped(s, key, r) && forall k :: k in s.slotMap && s.slotMap[k] == r ==> k == key
  }

  lemma ViewUpdated(s: State, t: State, key: Key, r: nat, i: Instance)
    requires PointersOk(s) && PointersOk(t) && r < |s.heap| && OnlyKey(s, key, r) && t.heap == s.heap[r := i]
    ensures t.slotMap == s.slotMap ==> View(t).slots == View(s).slots[key := i.slot]
    ensures t.slotMap == s.slotMap - {key} ==> View(t).slots == View(s).slots - {key}
  {
  }

  /** Where CPU `c` ends up idle with its verdict logged and the maps as given. */
  ghost predicate Ends(s: State, t: State, c: nat, m: X.Maps, x: X.Verdict) {
    && PointersOk(t) && c < |s.cpus| == |t.cpus| && t.cpus == s.cpus[c := t.cpus[c]] && t.cpus[c].pc.Idle?
    && View(t) == m && |t.log| == |s.log| + 1 && t.log[..|s.log|] == s.log && SameVerdict(t.log[|s.log|], x)
  }

  lemma EndsIf(s: State, t: State, c: nat, m: X.Maps, x: X.Verdict, v: Verdict)
    requires PointersOk(t) && c < |s.cpus| == |t.cpus| && t.cpus == s.cpus[c := t.cpus[c]] && t.cpus[c].pc.Idle?
    requires View(t) == m && t.log == s.log + [v] && SameVerdict(v, x)
    ensures Ends(s, t, c, m, x)
  {
  }

  lemma SoloReject(cfg: X.Config, s: State, c: nat, r: nat) returns (t: State)
    requires Safe(s) && At(s, c, Lock) && s.cpus[c].ref == r && s.heap[r].lock.None? && OnlyKey(s, s.cpus[c].p.key, r)
    requires !Acceptable(s.heap[r], s.cpus[c].p)
    ensures Leads(cfg, c, s, t) && Ends(s, t, c, View(s), X.Drop)
  {
    var i, u := s.heap[r], s.cpus[c];
    var i1, u1 := i.(lock := Some(c)), u.(pc := Check, done := false);
    var u2 := u1.(pc := Unlock);
    t := Local(s.(log := s.log + [Drop(u.p)]), c, r, i, u2.(pc := Idle));
    SameHere(s, c, r);
    TakeLock(cfg, s, c, r, i, u);
    RejectStep(cfg, s, c, r, i1, u1);
    LeadsOn(cfg, c, s, Local(s, c, r, i1, u1), Local(s, c, r, i1, u2));
    DropOut(cfg, s, c, r, i1, u2);
    assert i1.(lock := None) == i;
    LeadsOn(cfg, c, s, Local(s, c, r, i1, u2), t);
    LeadsKeepsSafe(cfg, c, s, t);
    ViewUpdated(s, t, u.p.key, r, i);
    EndsIf(s, t, c, View(s), X.Drop, Drop(u.p));
  }

  lemma SameHere(s: State, c: nat, r: nat)
    requires c < |s.cpus| && r < |s.heap|
    ensures Local(s, c, r, s.heap[r], s.cpus[c]) == s
  {
    assert s.heap[r := s.heap[r]] == s.heap && s.cpus[c := s.cpus[c]] == s.cpus;
  }

  /** From the lock to the completion test. */
  lemma SoloAbsorb(cfg: X.Config, s: State, c: nat, r: nat) returns (i: Instance, u: Cpu)
    requires PointersOk(s) && At(s, c, Lock) && s.cpus[c].ref == r && s.heap[r].lock.None? && Acceptable(s.heap[r], s.cpus[c].p)
    ensures Leads(cfg, c, s, Local(s, c, r, i, u)) && Sane(s, c, r, i, u)
    ensures u == s.cpus[c].(pc := Count, lane := |s.cpus[c].p.values|, done := false)
    ensures Counting(i).slot == X.Accumulated(s.heap[r].slot, u.p)
  {
    var i0, u0 := s.heap[r], s.cpus[c];
    var i1, u1 := i0.(lock := Some(c)), u0.(pc := Check, done := false);
    SameHere(s, c, r);
    TakeLock(cfg, s, c, r, i0, u0);
    Absorb(cfg, s, c, r, i1, u1);
    i, u := WithSum(Accepting(i1, u0.p), Accumulate(i0.slot.sum, u0.p)), u1.(pc := Count, lane := |u0.p.values|);
    LeadsOn(cfg, c, s, Local(s, c, r, i1, u1), Local(s, c, r, i, u));
    AbsorbedSlot(i1, u0.p);
  }

  lemma SoloCountOn(cfg: X.Config, s: State, c: nat, r: nat) returns (t: State)
    requires Safe(s) && At(s, c, Lock) && s.cpus[c].ref == r && s.heap[r].lock.None? && OnlyKey(s, s.cpus[c].p.key, r)
    requires Acceptable(s.heap[r], s.cpus[c].p)
    requires X.Accumulated(s.heap[r].slot, s.cpus[c].p).received != s.heap[r].slot.expected
    ensures Leads(cfg, c, s, t)
    ensures var p := s.cpus[c].p;
            Ends(s, t, c, X.Maps(View(s).slots[p.key := X.Accumulated(s.heap[r].slot, p)], s.jobs), X.Drop)
  {
    var p := s.cpus[c].p;
    var i, u := SoloAbsorb(cfg, s, c, r);
    var u' := u.(pc := Unlock);
    CountStep(cfg, s, c, r, i, u);
    LeadsOn(cfg, c, s, Local(s, c, r, i, u), Local(s, c, r, Counting(i), u'));
    DropOut(cfg, s, c, r, Counting(i), u');
    t := Local(s.(log := s.log + [Drop(p)]), c, r, Counting(i).(lock := None), u'.(pc := Idle));
    LeadsOn(cfg, c, s, Local(s, c, r, Counting(i), u'), t);
    LeadsKeepsSafe(cfg, c, s, t);
    ViewUpdated(s, t, p.key, r, Counting(i).(lock := None));
    EndsIf(s, t, c, X.Maps(View(s).slots[p.key := X.Accumulated(s.heap[r].slot, p)], s.jobs), X.Drop, Drop(p));
  }

  /** From the lock to a logged completion. */
  lemma SoloFill(cfg: X.Config, s: State, c: nat, r: nat) returns (s': State, i: Instance, u: Cpu)
    requires Safe(s) && At(s, c, Lock) && s.cpus[c].ref == r && s.heap[r].lock.None? && Acceptable(s.heap[r], s.cpus[c].p)
    requires X.Accumulated(s.heap[r].slot, s.cpus[c].p).received == s.heap[r].slot.expected
    ensures Sane(s', c, r, i, u) && Leads(cfg, c, s, Local(s', c, r, i, u))
    ensures s' == s.(completed := s.completed + [r]) && i.slot == X.Accumulated(s.heap[r].slot, u.p)
    ensures u == s.cpus[c].(pc := WriteBack, lane := 0, done := true)
  {
    var j, v := SoloAbsorb(cfg, s, c, r);
    s', i, u := s.(completed := s.completed + [r]), Counting(j).(closer := Some(c)), v.(pc := WriteBack, lane := 0, done := true);
    CompleteStep(cfg, s, c, r, j, v);
    LeadsOn(cfg, c, s, Local(s, c, r, j, v), Local(s', c, r, i, u));
  }

  lemma SoloComplete(cfg: X.Config, s: State, c: nat, r: nat) returns (t: State)
    requires Safe(s) && At(s, c, Lock) && s.cpus[c].ref == r && s.heap[r].lock.None? && OnlyKey(s, s.cpus[c].p.key, r)
    requires Acceptable(s.heap[r], s.cpus[c].p)
    requires X.Accumulated(s.heap[r].slot, s.cpus[c].p).received == s.heap[r].slot.expected
    ensures Leads(cfg, c, s, t)
    ensures var p := s.cpus[c].p;
            var slot := X.Accumulated(s.heap[r].slot, p);
            Ends(s, t, c, X.Maps(View(s).slots - {p.key}, X.Decrement(s.jobs, p.key.job)),
                 if cfg.populated then X.Tx(p.key, slot.sum[..|p.values|]) else X.Drop)
  {
    var p := s.cpus[c].p;
    var s', i, u := SoloFill(cfg, s, c, r);
    t := TearDown(cfg, s', c, r, i, u);
    LeadsOn(cfg, c, s, Local(s', c, r, i, u), t);
    LeadsKeepsSafe(cfg, c, s, t);
    ViewUpdated(s, t, p.key, r, i.(lock := None, removed := true));
    EndsIf(s, t, c, X.Maps(View(s).slots - {p.key}, X.Decrement(s.jobs, p.key.job)),
           if cfg.populated then X.Tx(p.key, X.Accumulated(s.heap[r].slot, p).sum[..|p.values|]) else X.Drop,
           if cfg.populated then Tx(p, r, i.slot.sum[..i.slot.chunkLen]) else Drop(p));
  }

  /** A completing CPU up to the decrement: the slot is out of the map, its job still charged. */
  lemma SoloUntilDecrement(cfg: X.Config, s: State, c: nat, r: nat) returns (t: State)
    requires Safe(s) && At(s, c, Lock) && s.cpus[c].ref == r && s.heap[r].lock.None? && Mapped(s, s.cpus[c].p.key, r)
    requires Acceptable(s.heap[r], s.cpus[c].p)
    requires X.Accumulated(s.heap[r].slot, s.cpus[c].p).received == s.heap[r].slot.expected
    ensures Leads(cfg, c, s, t) && |t.cpus| == |s.cpus| && t.cpus[c].pc.DecLookup? && t.cpus[c].p == s.cpus[c].p && t.jobs == s.jobs
  {
    var s1, i, u := SoloFill(cfg, s, c, r);
    var s2, i', u' := TearDownMap(cfg, s1, c, r, i, u);
    t := Local(s2, c, r, i', u');
    LeadsOn(cfg, c, s, Local(s1, c, r, i, u), t);
  }

  /** The locked region and what follows it, on one CPU, are the sequential Contribute. */
  lemma SoloContribute(cfg: X.Config, s: State, c: nat, r: nat) returns (t: State)
    requires Safe(s) && At(s, c, Lock) && s.cpus[c].ref == r && s.heap[r].lock.None? && OnlyKey(s, s.cpus[c].p.key, r)
    requires X.Shaped(View(s)) && s.cpus[c].p.key in View(s).slots
    ensures var x := X.Contribute(cfg, View(s), s.cpus[c].p);
            Leads(cfg, c, s, t) && Ends(s, t, c, x.1, x.0)
  {
    var p := s.cpus[c].p;
    assert View(s).slots[p.key] == s.heap[r].slot;
    if !Acceptable(s.heap[r], p) {
      t := SoloReject(cfg, s, c, r);
    } else if X.Accumulated(s.heap[r].slot, p).received != s.heap[r].slot.expected {
      t := SoloCountOn(cfg, s, c, r);
    } else {
      t := SoloComplete(cfg, s, c, r);
    }
  }

  // --------------------------------------------------------- finding or creating the slot

  /** job_quota_increment without interference is the sequential one. */
  lemma SoloIncrement(cfg: X.Config, s: State, c: nat) returns (t: State)
    requires At(s, c, IncLookup)
    ensures Leads(cfg, c, s, t)
    ensures t == Next(s, c, Lock).(jobs := X.Increment(cfg, s.jobs, s.cpus[c].p.key.job))
  {
    var j := s.cpus[c].p.key.job;
    t := Next(s, c, Lock).(jobs := X.Increment(cfg, s.jobs, j));
    var s1 := DoIncLookup(s, c);
    LeadsOne(cfg, c, s, s1);
    if j in s.jobs {
      IncrementEntry(cfg, s1, c);
      NextTwice(s, c, IncAdd, Lock);
      LeadsOn(cfg, c, s, s1, t);
    } else if |s.jobs| < cfg.maxJobs {
      NewEntry(cfg, s1, c);
      NextTwice(s, c, IncCreate, Lock);
      LeadsOn(cfg, c, s, s1, t);
    } else {
      NoEntry(cfg, s1, c);
      NextTwice(s, c, IncCreate, Lock);
      LeadsOn(cfg, c, s, s1, t);
    }
  }

  lemma NextTwice(s: State, c: nat, pc: Pc, pc': Pc)
    requires c < |s.cpus|
    ensures Next(Next(s, c, pc), c, pc') == Next(s, c, pc')
  {
    assert s.cpus[c := s.cpus[c].(pc := pc)][c := s.cpus[c].(pc := pc')] == s.cpus[c := s.cpus[c].(pc := pc')];
  }

  lemma IncrementEntry(cfg: X.Config, s: State, c: nat)
    requires At(s, c, IncAdd) && s.cpus[c].p.key.job in s.jobs
    ensures Leads(cfg, c, s, Next(s, c, Lock).(jobs := X.Increment(cfg, s.jobs, s.cpus[c].p.key.job)))
  {
    LeadsOne(cfg, c, s, Next(s, c, Lock).(jobs := X.Increment(cfg, s.jobs, s.cpus[c].p.key.job)));
  }

  lemma NewEntry(cfg: X.Config, s: State, c: nat)
    requires At(s, c, IncCreate) && s.cpus[c].p.key.job !in s.jobs && |s.jobs| < cfg.maxJobs
    ensures Leads(cfg, c, s, Next(s, c, Lock).(jobs := X.Increment(cfg, s.jobs, s.cpus[c].p.key.job)))
  {
    LeadsOne(cfg, c, s, Next(s, c, Lock).(jobs := X.Increment(cfg, s.jobs, s.cpus[c].p.key.job)));
  }

  lemma NoEntry(cfg: X.Config, s: State, c: nat)
    requires At(s, c, IncCreate) && s.cpus[c].p.key.job !in s.jobs && |s.jobs| >= cfg.maxJobs
    ensures Leads(cfg, c, s, Next(s, c, Lock))
  {
    var s1 := Next(s, c, IncRetry);
    LeadsOne(cfg, c, s, s1);
    NextTwice(s, c, IncRetry, Lock);
    LeadsOne(cfg, c, s1, Next(s, c, Lock));
    LeadsOn(cfg, c, s, s1, Next(s, c, Lock));
  }

  /** The state at the lock, or dropped before it. */
  ghost predicate Opened(cfg: X.Config, s: State, t: State, c: nat)
    requires c < |s.cpus| && PointersOk(s)
  {
    var p := s.cpus[c].p;
    && PointersOk(t) && |t.cpus| == |s.cpus| && t.cpus == s.cpus[c := t.cpus[c]] && View(t) == X.Open(cfg, View(s), p)
    && if p.key in t.slotMap then
         t.log == s.log && t.cpus[c] == s.cpus[c].(pc := Lock, ref := t.slotMap[p.key], won := t.cpus[c].won)
       else t.log == s.log + [Drop(p)] && t.cpus[c].pc.Idle?
  }

  lemma SoloHit(cfg: X.Config, s: State, c: nat) returns (t: State)
    requires At(s, c, Lookup) && s.cpus[c].p.key in s.slotMap
    ensures Leads(cfg, c, s, t) && Opened(cfg, s, t, c)
  {
    t := DoLookup(s, c);
    LeadsOne(cfg, c, s, t);
  }

  lemma SoloRefuse(cfg: X.Config, s: State, c: nat) returns (t: State)
    requires At(s, c, Admit) && s.cpus[c].p.key !in s.slotMap
    requires !ValidFanIn(s.cpus[c].p.numWorkers) || X.AtQuota(cfg, s.jobs, s.cpus[c].p.key.job)
    ensures Leads(cfg, c, s, t) && Opened(cfg, s, t, c)
  {
    t := DoAdmit(cfg, s, c);
    LeadsOne(cfg, c, s, t);
  }

  lemma SoloFull(cfg: X.Config, s: State, c: nat) returns (t: State)
    requires At(s, c, Create) && s.cpus[c].p.key !in s.slotMap && |s.slotMap| >= cfg.maxSlots
    ensures Leads(cfg, c, s, t) && Opened(cfg, s, t, c)
  {
    var s1 := DoCreate(cfg, s, c);
    LeadsOne(cfg, c, s, s1);
    t := DoRelookup(s1, c);
    LeadsOne(cfg, c, s1, t);
    LeadsOn(cfg, c, s, s1, t);
    FullView(s);
  }

  lemma FullView(s: State)
    requires PointersOk(s)
    ensures |View(s).slots| == |s.slotMap|
  {
    assert View(s).slots.Keys == s.slotMap.Keys;
    assert |View(s).slots| == |View(s).slots.Keys| && |s.slotMap| == |s.slotMap.Keys|;
  }

  /** Creating the slot and finding it again. */
  /** The winner's re-lookup. */
  lemma FindsItsOwn(s: State, c: nat)
    requires At(s, c, Create) && s.cpus[c].p.key !in s.slotMap
    ensures var s1 := Created(s, c);
            At(s1, c, Relookup) && At(DoRelookup(s1, c), c, IncLookup)
            && DoRelookup(s1, c) == s1.(cpus := s.cpus[c := s.cpus[c].(pc := IncLookup, won := true, ref := |s.heap|)])
  {
    var s1 := Created(s, c);
    assert CpuShape(s1.cpus[c], |s1.heap|);
    assert s.cpus[c := s1.cpus[c]][c := DoRelookup(s1, c).cpus[c]] == s.cpus[c := DoRelookup(s1, c).cpus[c]];
  }

  lemma SoloWin(cfg: X.Config, s: State, c: nat) returns (t: State)
    requires At(s, c, Create) && s.cpus[c].p.key !in s.slotMap && |s.slotMap| < cfg.maxSlots
    ensures Leads(cfg, c, s, t) && At(t, c, IncLookup)
    ensures var u := s.cpus[c];
            t == Created(s, c).(cpus := s.cpus[c := u.(pc := IncLookup, won := true, ref := |s.heap|)])
  {
    var s1 := Created(s, c);
    LeadsOne(cfg, c, s, s1);
    FindsItsOwn(s, c);
    t := DoRelookup(s1, c);
    LeadsOne(cfg, c, s1, t);
    LeadsOn(cfg, c, s, s1, t);
  }

  lemma SoloCreate(cfg: X.Config, s: State, c: nat) returns (t: State)
    requires At(s, c, Create) && s.cpus[c].p.key !in s.slotMap && |s.slotMap| < cfg.maxSlots
    requires ValidFanIn(s.cpus[c].p.numWorkers) && !X.AtQuota(cfg, s.jobs, s.cpus[c].p.key.job)
    ensures Leads(cfg, c, s, t) && Opened(cfg, s, t, c)
  {
    var s2 := SoloWin(cfg, s, c);
    t := SoloIncrement(cfg, s2, c);
    LeadsOn(cfg, c, s, s2, t);
    LeadsKeepsPointers(cfg, c, s2, t);
    CreatedOpened(cfg, s, c, s2, t);
  }

  lemma CreatedOpened(cfg: X.Config, s: State, c: nat, s2: State, t: State)
    requires At(s, c, Create) && s.cpus[c].p.key !in s.slotMap && |s.slotMap| < cfg.maxSlots
    requires ValidFanIn(s.cpus[c].p.numWorkers) && !X.AtQuota(cfg, s.jobs, s.cpus[c].p.key.job)
    requires s2 == Created(s, c).(cpus := s.cpus[c := s.cpus[c].(pc := IncLookup, won := true, ref := |s.heap|)])
    requires t == Next(s2, c, Lock).(jobs := X.Increment(cfg, s.jobs, s.cpus[c].p.key.job)) && PointersOk(t)
    ensures Opened(cfg, s, t, c)
  {
    FullView(s);
    CreatedView(s, c, t);
    assert s.cpus[c := s2.cpus[c]][c := t.cpus[c]] == s.cpus[c := t.cpus[c]];
  }

  lemma LeadsKeepsPointers(cfg: X.Config, c: nat, s: State, t: State)
    requires PointersOk(s) && c < |s.cpus| && Leads(cfg, c, s, t)
    ensures PointersOk(t)
  {
    var n: nat :| Repeat(Alone(cfg, c), s, n) == t;
    RepeatKeepsArrived(cfg, c, s, n);
  }

  lemma CreatedView(s: State, c: nat, t: State)
    requires At(s, c, Create) && PointersOk(t) && s.cpus[c].p.key !in s.slotMap
    requires t.slotMap == Created(s, c).slotMap && t.heap == Created(s, c).heap
    ensures View(t).slots == View(s).slots[s.cpus[c].p.key := X.Fresh(s.cpus[c].p)]
  {
  }

  /** The lookups and the creation, on one CPU, are the sequential Open. */
  lemma SoloOpen(cfg: X.Config, s: State, c: nat) returns (t: State)
    requires At(s, c, Lookup)
    ensures Leads(cfg, c, s, t) && Opened(cfg, s, t, c)
  {
    if s.cpus[c].p.key in s.slotMap {
      t := SoloHit(cfg, s, c);
    } else {
      var s1 := DoLookup(s, c);
      LeadsOne(cfg, c, s, s1);
      t := SoloAdmit(cfg, s1, c);
      LeadsOn(cfg, c, s, s1, t);
      OpenedFrom(cfg, s, Admit, t, c);
    }
  }

  lemma SoloAdmit(cfg: X.Config, s: State, c: nat) returns (t: State)
    requires At(s, c, Admit) && s.cpus[c].p.key !in s.slotMap
    ensures Leads(cfg, c, s, t) && Opened(cfg, s, t, c)
  {
    if !ValidFanIn(s.cpus[c].p.numWorkers) || X.AtQuota(cfg, s.jobs, s.cpus[c].p.key.job) {
      t := SoloRefuse(cfg, s, c);
    } else {
      var s1 := DoAdmit(cfg, s, c);
      LeadsOne(cfg, c, s, s1);
      if |s.slotMap| >= cfg.maxSlots {
        t := SoloFull(cfg, s1, c);
      } else {
        t := SoloCreate(cfg, s1, c);
      }
      LeadsOn(cfg, c, s, s1, t);
      OpenedFrom(cfg, s, Create, t, c);
    }
  }

  /** Only the program counter moved before. */
  lemma OpenedFrom(cfg: X.Config, s: State, pc: Pc, t: State, c: nat)
    requires PointersOk(s) && c < |s.cpus| && PointersOk(Next(s, c, pc)) && Opened(cfg, Next(s, c, pc), t, c)
    ensures Opened(cfg, s, t, c)
  {
    assert s.cpus[c := s.cpus[c].(pc := pc)][c := t.cpus[c]] == s.cpus[c := t.cpus[c]];
    assert View(Next(s, c, pc)) == View(s);
  }

  // ----------------------------------------------------------------- whole packets

  /** Nobody else is inside a locked region. */
  ghost predicate Unhindered(s: State, c: nat) {
    forall d :: 0 <= d < |s.cpus| && d != c ==> !Critical(s.cpus[d].pc)
  }

  lemma AloneMeansUnlocked(s: State, c: nat, r: nat)
    requires Safe(s) && At(s, c, Lock) && s.cpus[c].ref == r && Mapped(s, s.cpus[c].p.key, r) && Unhindered(s, c)
    ensures r < |s.heap| && s.heap[r].lock.None? && OnlyKey(s, s.cpus[c].p.key, r)
  {
    assert InstanceOk(s, r);
  }

  lemma StepSplits(cfg: X.Config, m: X.Maps, p: Packet)
    requires X.Shaped(m) && Bounded(p)
    ensures var m1 := X.Open(cfg, m, p);
            X.Shaped(m1) && X.Step(cfg, m, p) == if p.key in m1.slots then X.Contribute(cfg, m1, p) else (X.Drop, m1)
  {
  }

  /** From the lock, or from an early drop, to the verdict. */
  lemma SoloFinish(cfg: X.Config, s: State, s1: State, c: nat) returns (t: State)
    requires PointersOk(s) && c < |s.cpus| && Safe(s1) && Opened(cfg, s, s1, c) && Bounded(s.cpus[c].p)
    requires Unhindered(s, c) && X.Shaped(View(s))
    ensures Leads(cfg, c, s1, t)
    ensures Ends(s, t, c, X.Step(cfg, View(s), s.cpus[c].p).1, X.Step(cfg, View(s), s.cpus[c].p).0)
  {
    var p := s.cpus[c].p;
    var m1 := X.Open(cfg, View(s), p);
    StepSplits(cfg, View(s), p);
    if p.key in s1.slotMap {
      AloneMeansUnlocked(s1, c, s1.slotMap[p.key]);
      assert p.key in m1.slots;
      t := SoloContribute(cfg, s1, c, s1.slotMap[p.key]);
      ThenEnds(s, s1, t, c, X.Contribute(cfg, m1, p).1, X.Contribute(cfg, m1, p).0);
    } else {
      t := s1;
      assert p.key !in m1.slots;
      LeadsHere(cfg, c, t);
      EndsIf(s, t, c, m1, X.Drop, Drop(p));
    }
  }

  /** One CPU from the lookup to the verdict, while nobody else is inside a locked region. */
  lemma SoloRest(cfg: X.Config, s: State, c: nat) returns (t: State)
    requires Safe(s) && At(s, c, Lookup) && Unhindered(s, c)
    ensures Leads(cfg, c, s, t) && X.Shaped(View(s))
    ensures Ends(s, t, c, X.Step(cfg, View(s), s.cpus[c].p).1, X.Step(cfg, View(s), s.cpus[c].p).0)
  {
    var s1 := SoloOpen(cfg, s, c);
    LeadsKeepsSafe(cfg, c, s, s1);
    t := SoloFinish(cfg, s, s1, c);
    LeadsOn(cfg, c, s, s1, t);
  }

  lemma AfterReceive(s: State, c: nat, p: Packet)
    requires PointersOk(s) && Quiescent(s) && c < |s.cpus| && Bounded(p)
    ensures var s0 := Receive(s, c, p);
            At(s0, c, Lookup) && s0.cpus[c].p == p && View(s0) == View(s) && Unhindered(s0, c)
            && s0.log == s.log && s0.cpus == s.cpus[c := s0.cpus[c]]
  {
  }

  /** One packet, alone, from arrival to verdict. */
  lemma SoloParsed(cfg: X.Config, s: State, c: nat, p: Packet) returns (t: State)
    requires Safe(s) && Quiescent(s) && c < |s.cpus| && Bounded(p)
    ensures Leads(cfg, c, Receive(s, c, p), t) && Quiescent(t)
    ensures X.Shaped(View(s)) && Ends(s, t, c, X.Step(cfg, View(s), p).1, X.Step(cfg, View(s), p).0)
  {
    var s0 := Receive(s, c, p);
    ReceiveKeeps(s, c, p);
    AfterReceive(s, c, p);
    t := SoloRest(cfg, s0, c);
    ThenEnds(s, s0, t, c, X.Step(cfg, View(s), p).1, X.Step(cfg, View(s), p).0);
  }

  /** The parser's drop, on both sides. */
  lemma SoloMalformed(cfg: X.Config, s: State, c: nat, p: Packet)
    requires PointersOk(s) && Quiescent(s) && c < |s.cpus| && !Bounded(p)
    ensures var t := Receive(s, c, p);
            Quiescent(t) && X.Shaped(View(s)) && Ends(s, t, c, X.Step(cfg, View(s), p).1, X.Step(cfg, View(s), p).0)
  {
    assert s.cpus == s.cpus[c := s.cpus[c]];
  }

  /** Any packet, alone, from arrival to verdict. */
  lemma SoloPacket(cfg: X.Config, s: State, c: nat, p: Packet) returns (t: State)
    requires Safe(s) && Quiescent(s) && c < |s.cpus|
    ensures Leads(cfg, c, Receive(s, c, p), t) && Quiescent(t)
    ensures X.Shaped(View(s)) && Ends(s, t, c, X.Step(cfg, View(s), p).1, X.Step(cfg, View(s), p).0)
  {
    if Bounded(p) {
      t := SoloParsed(cfg, s, c, p);
    } else {
      t := Receive(s, c, p);
      SoloMalformed(cfg, s, c, p);
      LeadsHere(cfg, c, t);
    }
  }

  lemma ThenEnds(s: State, t: State, u: State, c: nat, m: X.Maps, x: X.Verdict)
    requires c < |s.cpus| == |t.cpus| && t.cpus == s.cpus[c := t.cpus[c]] && t.log == s.log && Ends(t, u, c, m, x)
    ensures Ends(s, u, c, m, x)
  {
    assert s.cpus[c := t.cpus[c]][c := u.cpus[c]] == s.cpus[c := u.cpus[c]];
  }

  function Steps(c: nat, n: nat): seq<Action> {
    Same(Go(c), n)
  }

  lemma GoIsRepeat(cfg: X.Config, s: State, c: nat, n: nat)
    ensures Continue(cfg, s, Steps(c, n)) == Repeat(Alone(cfg, c), s, n)
  {
    FoldSame(Applying(cfg), s, Go(c), n);
  }

  /** Steps of one CPU, as the scheduler's choices. */
  lemma LeadsIsSchedule(cfg: X.Config, cpus: nat, actions: seq<Action>, c: nat, n: nat) returns (more: seq<Action>)
    requires c < cpus
    ensures Run(cfg, cpus, actions + more) == Repeat(Alone(cfg, c), Run(cfg, cpus, actions), n)
  {
    more := Steps(c, n);
    RunContinues(cfg, cpus, actions, more);
    GoIsRepeat(cfg, Run(cfg, cpus, actions), c, n);
  }

  lemma PacketSchedule(cfg: X.Config, cpus: nat, before: seq<Action>, c: nat, p: Packet, t: State) returns (actions: seq<Action>)
    requires c < cpus && Leads(cfg, c, Receive(Run(cfg, cpus, before), c, p), t)
    ensures Run(cfg, cpus, actions) == t
  {
    var n: nat :| Repeat(Alone(cfg, c), Receive(Run(cfg, cpus, before), c, p), n) == t;
    RunSnoc(cfg, cpus, before, Arrive(c, p));
    var steps := LeadsIsSchedule(cfg, cpus, before + [Arrive(c, p)], c, n);
    actions := before + [Arrive(c, p)] + steps;
  }

  /** The machine has answered these packets as the sequential program does. */
  ghost predicate Mirrors(cfg: X.Config, s: State, ps: seq<Packet>) {
    && PointersOk(s) && Quiescent(s) && View(s) == X.Run(cfg, ps) && LogsAgree(s.log, X.Verdicts(cfg, ps))
  }

  lemma BootMirrors(cfg: X.Config, cpus: nat)
    ensures Mirrors(cfg, Boot(cpus), [])
  {
  }

  /** The verdict logs agree, entry by entry. */
  ghost predicate LogsAgree(log: seq<Verdict>, xs: seq<X.Verdict>) {
    |log| == |xs| && forall k :: 0 <= k < |xs| ==> SameVerdict(log[k], xs[k])
  }

  lemma LogsAgreeMore(log: seq<Verdict>, log': seq<Verdict>, xs: seq<X.Verdict>, x: X.Verdict)
    requires LogsAgree(log, xs) && |log'| == |log| + 1 && log'[..|log|] == log && SameVerdict(log'[|log|], x)
    ensures LogsAgree(log', xs + [x])
  {
    forall k | 0 <= k < |xs| + 1 ensures SameVerdict(log'[k], (xs + [x])[k]) {
      if k < |xs| {
        assert log'[k] == log'[..|log|][k];
      }
    }
  }

  lemma MirrorsMore(cfg: X.Config, s: State, c: nat, p: Packet, t: State, ps: seq<Packet>)
    requires Mirrors(cfg, s, ps) && c < |s.cpus| && Quiescent(t) && X.Shaped(View(s))
    requires Ends(s, t, c, X.Step(cfg, View(s), p).1, X.Step(cfg, View(s), p).0)
    ensures Mirrors(cfg, t, ps + [p])
  {
    X.RunSnoc(cfg, ps, p);
    var x := X.Step(cfg, X.Run(cfg, ps), p).0;
    LogsAgreeMore(s.log, t.log, X.Verdicts(cfg, ps), x);
  }

  lemma OneMore(cfg: X.Config, cpus: nat, ps: seq<Packet>, before: seq<Action>, c: nat) returns (actions: seq<Action>)
    requires ps != [] && Mirrors(cfg, Run(cfg, cpus, before), ps[..|ps| - 1]) && c < cpus
    ensures Mirrors(cfg, Run(cfg, cpus, actions), ps)
  {
    var s, p := Run(cfg, cpus, before), ps[|ps| - 1];
    RunSafe(cfg, cpus, before);
    var t := SoloPacket(cfg, s, c, p);
    MirrorsMore(cfg, s, c, p, t, ps[..|ps| - 1]);
    assert ps[..|ps| - 1] + [p] == ps;
    actions := PacketSchedule(cfg, cpus, before, c, p, t);
  }

  /**
   The concurrent program, given one packet at a time on CPUs of the scheduler's
   choice, is the sequential program: same maps and same verdicts.
   */
  lemma {:induction false} SoloRun(cfg: X.Config, cpus: nat, ps: seq<Packet>, on: seq<nat>) returns (actions: seq<Action>)
    requires |on| == |ps| && forall k :: 0 <= k < |ps| ==> on[k] < cpus
    ensures Mirrors(cfg, Run(cfg, cpus, actions), ps)
  {
    if ps == [] {
      actions := [];
      BootMirrors(cfg, cpus);
    } else {
      var before := SoloRun(cfg, cpus, ps[..|ps| - 1], on[..|ps| - 1]);
      actions := OneMore(cfg, cpus, ps, before, on[|ps| - 1]);
    }
  }

  // ------------------------------------------------------- every such schedule

  /** One packet's turn: the CPU it goes to, and how many steps that CPU gets. */
  datatype Turn = Turn(c: nat, p: Packet, steps: nat)

  function Schedule(turns: seq<Turn>): seq<Action> {
    if turns == [] then []
    else
      var t := turns[|turns| - 1];
      Schedule(turns[..|turns| - 1]) + [Arrive(t.c, t.p)] + Steps(t.c, t.steps)
  }

  function PacketsOf(turns: seq<Turn>): seq<Packet> {
    if turns == [] then [] else PacketsOf(turns[..|turns| - 1]) + [turns[|turns| - 1].p]
  }

  /** Each packet has its verdict before the next one arrives. */
  ghost predicate OneAtATime(cfg: X.Config, cpus: nat, turns: seq<Turn>) {
    && Quiescent(Run(cfg, cpus, Schedule(turns)))
    && (turns != [] ==> turns[|turns| - 1].c < cpus && OneAtATime(cfg, cpus, turns[..|turns| - 1]))
  }

  lemma IdleIsFixed(cfg: X.Config, s: State, c: nat)
    requires Quiescent(s)
    ensures Alone(cfg, c)(s) == s
  {
  }

  /** A CPU alone has one outcome: stepping it further changes nothing. */
  lemma OneOutcome(cfg: X.Config, s: State, c: nat, t: State, n: nat)
    requires PointersOk(s) && c < |s.cpus| && Leads(cfg, c, s, t) && Quiescent(t)
    requires Quiescent(Repeat(Alone(cfg, c), s, n))
    ensures Repeat(Alone(cfg, c), s, n) == t
  {
    var m: nat :| Repeat(Alone(cfg, c), s, m) == t;
    IdleIsFixed(cfg, t, c);
    IdleIsFixed(cfg, Repeat(Alone(cfg, c), s, n), c);
    if m <= n {
      RepeatStays(Alone(cfg, c), s, m, n);
    } else {
      RepeatStays(Alone(cfg, c), s, n, m);
    }
  }

  lemma LastTurn(cfg: X.Config, cpus: nat, turns: seq<Turn>)
    requires turns != [] && turns[|turns| - 1].c < cpus
    ensures var front, t := turns[..|turns| - 1], turns[|turns| - 1];
            Run(cfg, cpus, Schedule(turns)) == Repeat(Alone(cfg, t.c), Receive(Run(cfg, cpus, Schedule(front)), t.c, t.p), t.steps)
  {
    var before, t := Schedule(turns[..|turns| - 1]), turns[|turns| - 1];
    RunSnoc(cfg, cpus, before, Arrive(t.c, t.p));
    RunContinues(cfg, cpus, before + [Arrive(t.c, t.p)], Steps(t.c, t.steps));
    GoIsRepeat(cfg, Receive(Run(cfg, cpus, before), t.c, t.p), t.c, t.steps);
  }

  lemma TurnMirrors(cfg: X.Config, s: State, t: Turn, s': State, ps: seq<Packet>)
    requires Safe(s) && Mirrors(cfg, s, ps) && t.c < |s.cpus| && Quiescent(s')
    requires s' == Repeat(Alone(cfg, t.c), Receive(s, t.c, t.p), t.steps)
    ensures Mirrors(cfg, s', ps + [t.p])
  {
    var r := SoloPacket(cfg, s, t.c, t.p);
    OneOutcome(cfg, Receive(s, t.c, t.p), t.c, r, t.steps);
    MirrorsMore(cfg, s, t.c, t.p, r, ps);
  }

  /**
   And every schedule that gives packets one at a time, on any CPUs, behaves as the
   sequential program.
   */
  lemma {:induction false} EverySoloRun(cfg: X.Config, cpus: nat, turns: seq<Turn>)
    requires OneAtATime(cfg, cpus, turns)
    ensures Mirrors(cfg, Run(cfg, cpus, Schedule(turns)), PacketsOf(turns))
  {
    if turns == [] {
      BootMirrors(cfg, cpus);
    } else {
      var front, t := turns[..|turns| - 1], turns[|turns| - 1];
      EverySoloRun(cfg, cpus, front);
      RunSafe(cfg, cpus, Schedule(front));
      LastTurn(cfg, cpus, turns);
      TurnMirrors(cfg, Run(cfg, cpus, Schedule(front)), t, Run(cfg, cpus, Schedule(turns)), PacketsOf(front));
    }
  }
}
