/**
 Delivery by the concurrent kernel program: when every worker of a key sends
 once, the key's packets are answered by one XDP_TX with the sum over all of them
 and by drops, whatever the interleaving and whoever won the creation race.
 */
module XdpDelivery {
  import opened GradProto
  import opened XdpMachine
  import opened XdpSafety
  import opened XdpGuarantees
  import opened XdpOnce
  import X = XdpProgram

  // ------------------------------------------------------------------- admission

  /** Neither the quota nor a full slot_map refuses a packet of this key now. */
  ghost predicate Welcome(cfg: X.Config, s: State, key: Key) {
    forall c :: 0 <= c < |s.cpus| && s.cpus[c].p.key == key ==>
      && (s.cpus[c].pc.Admit? ==> !X.AtQuota(cfg, s.jobs, key.job))
      && (s.cpus[c].pc.Create? ==> key in s.slotMap || |s.slotMap| < cfg.maxSlots)
  }

  ghost predicate WelcomeAfter(cfg: X.Config, cpus: nat, actions: seq<Action>, key: Key) {
    Welcome(cfg, Run(cfg, cpus, actions), key)
  }

  /** Nor does it at any time of the run. */
  ghost predicate NeverRefused(cfg: X.Config, cpus: nat, actions: seq<Action>, key: Key) {
    forall k :: 0 <= k <= |actions| ==> WelcomeAfter(cfg, cpus, actions[..k], key)
  }

  // ------------------------------------------------------------------- invariant

  /** `p` was absorbed, and was not the contribution that completed the slot. */
  ghost predicate NotLast(i: Instance, p: Packet) {
    exists k :: 0 <= k < |i.contribs| && i.contribs[k] == p && k != i.slot.expected - 1
  }

  ghost predicate Absorbed(s: State, p: Packet) {
    exists r :: 0 <= r < |s.heap| && p in s.heap[r].contribs
  }

  ghost predicate AwaitingSlot(s: State, p: Packet) {
    exists c :: 0 <= c < |s.cpus| && Pending(s.cpus[c].pc) && s.cpus[c].p == p
  }

  ghost predicate InFlight(s: State, p: Packet) {
    exists c :: 0 <= c < |s.cpus| && !s.cpus[c].pc.Idle? && s.cpus[c].p == p
  }

  /** A verdict on a parsed packet of the key. */
  predicate Answers(v: Verdict, key: Key) {
    !v.Malformed? && v.p.key == key
  }

  ghost predicate Answered(s: State, p: Packet) {
    exists k :: 0 <= k < |s.log| && Answers(s.log[k], p.key) && s.log[k].p == p
  }

  ghost predicate ArrivalOk(s: State, p: Packet) {
    (AwaitingSlot(s, p) || Absorbed(s, p)) && (InFlight(s, p) || Answered(s, p))
  }

  /** Every arrival of the key is waiting for its slot or absorbed, and in flight or answered. */
  ghost predicate Accounted(s: State, key: Key) {
    forall k :: 0 <= k < |s.arrived| && s.arrived[k].key == key ==> ArrivalOk(s, s.arrived[k])
  }

  predicate Busy(u: Cpu, key: Key) {
    !u.pc.Idle? && u.p.key == key
  }

  /** Each packet of the key is carried by one CPU or answered once, not both. */
  ghost predicate OnceEach(s: State, key: Key) {
    && (forall c, d :: 0 <= c < d < |s.cpus| && Busy(s.cpus[c], key) && Busy(s.cpus[d], key) ==> s.cpus[c].p != s.cpus[d].p)
    && (forall k, l :: 0 <= k < l < |s.log| && Answers(s.log[k], key) && Answers(s.log[l], key) ==> s.log[k].p != s.log[l].p)
    && (forall k :: 0 <= k < |s.log| && Answers(s.log[k], key) ==> s.log[k].p in s.arrived && !InFlight(s, s.log[k].p))
  }

  ghost predicate DroppedEarly(s: State, p: Packet) {
    exists r :: 0 <= r < |s.heap| && NotLast(s.heap[r], p)
  }

  /** Only contributions that did not complete their slot are dropped. */
  ghost predicate DropsOk(s: State, key: Key) {
    forall k :: 0 <= k < |s.log| && Answers(s.log[k], key) && s.log[k].Drop? ==> DroppedEarly(s, s.log[k].p)
  }

  ghost predicate CarriesOk(s: State, c: nat)
    requires c < |s.cpus|
  {
    var u := s.cpus[c];
    && (u.pc.Relookup? ==> u.p.key in s.slotMap)
    && (u.pc.Unlock? && !u.done ==> u.ref < |s.heap| && NotLast(s.heap[u.ref], u.p))
  }

  ghost predicate DeliveryInv(s: State, key: Key) {
    && Accounted(s, key) && OnceEach(s, key) && DropsOk(s, key)
    && forall c :: 0 <= c < |s.cpus| && s.cpus[c].p.key == key ==> CarriesOk(s, c)
  }

  // ----------------------------------------------------------------- what a step does

  /** A CPU either keeps its packet, absorbing it at most, or answers for an absorbed one. */
  ghost predicate Carries(s: State, s': State, c: nat)
    requires c < |s.cpus| && |s'.cpus| == |s.cpus|
  {
    var u, u' := s.cpus[c], s'.cpus[c];
    if u'.pc.Idle? then
      && !Pending(u.pc) && |s'.log| == |s.log| + 1 && s'.log == s.log + [s'.log[|s.log|]] && s'.log[|s.log|].p == u.p
      && !s'.log[|s.log|].Malformed? && (s'.log[|s.log|].Drop? ==> u.pc.Unlock? && !u.done)
    else
      && s'.log == s.log
      && (Pending(u.pc) ==> Pending(u'.pc) || (u.ref < |s'.heap| && u.p in s'.heap[u.ref].contribs))
  }

  /** This CPU's packet belongs to a key whose workers send once. */
  ghost predicate OwnSettled(s: State, c: nat) {
    c < |s.cpus| && Settled(s, s.cpus[c].p.key)
  }

  lemma AdmitCarries(cfg: X.Config, s: State, c: nat)
    requires OwnSettled(s, c) && Welcome(cfg, s, s.cpus[c].p.key) && At(s, c, Admit)
    ensures Carries(s, DoAdmit(cfg, s, c), c) && CarriesOk(DoAdmit(cfg, s, c), c)
  {
    assert s.cpus[c].p in s.arrived;
  }

  lemma CreateCarries(cfg: X.Config, s: State, c: nat)
    requires OwnSettled(s, c) && Welcome(cfg, s, s.cpus[c].p.key) && At(s, c, Create)
    ensures Carries(s, DoCreate(cfg, s, c), c) && CarriesOk(DoCreate(cfg, s, c), c)
  {
  }

  lemma CheckCarries(s: State, c: nat)
    requires OwnSettled(s, c) && At(s, c, Check)
    ensures Carries(s, DoCheck(s, c), c) && CarriesOk(DoCheck(s, c), c)
  {
    var u := s.cpus[c];
    Holder(s, c);
    AgreesWithStream(s, u.ref, u.p);
    assert Acceptable(s.heap[u.ref], u.p);
    assert DoCheck(s, c).heap[u.ref] == Accepting(s.heap[u.ref], u.p);
  }

  lemma CountCarries(s: State, c: nat)
    requires OwnSettled(s, c) && At(s, c, Count)
    ensures Carries(s, DoCount(s, c), c) && CarriesOk(DoCount(s, c), c)
  {
    var s', u := DoCount(s, c), s.cpus[c];
    Holder(s, c);
    var i := s.heap[u.ref];
    Counts(i, c, u);
    if s'.cpus[c].pc.Unlock? {
      assert s'.heap[u.ref].contribs[|i.contribs| - 1] == u.p;
    }
  }

  lemma UnlockCarries(s: State, c: nat)
    requires OwnSettled(s, c) && At(s, c, Unlock)
    ensures Carries(s, DoUnlock(s, c), c) && CarriesOk(DoUnlock(s, c), c)
  {
  }

  lemma DecLookupCarries(cfg: X.Config, s: State, c: nat)
    requires cfg.populated && At(s, c, DecLookup)
    ensures Carries(s, DoDecLookup(cfg, s, c), c) && CarriesOk(DoDecLookup(cfg, s, c), c)
  {
  }

  lemma DecAddCarries(cfg: X.Config, s: State, c: nat)
    requires cfg.populated && At(s, c, DecAdd)
    ensures Carries(s, DoDecAdd(cfg, s, c), c) && CarriesOk(DoDecAdd(cfg, s, c), c)
  {
  }

  lemma WriteBackCarries(s: State, c: nat)
    requires OwnSettled(s, c) && At(s, c, WriteBack)
    ensures Carries(s, DoWriteBack(s, c), c) && CarriesOk(DoWriteBack(s, c), c)
  {
    Holder(s, c);
  }

  /** The other steps just go on to the next one. */
  lemma GoesOn(s: State, s': State, c: nat)
    requires c < |s.cpus| && Follows(s, s', c) && s'.log == s.log && !s'.cpus[c].pc.Idle?
    requires Pending(s.cpus[c].pc) ==> Pending(s'.cpus[c].pc)
    requires !s'.cpus[c].pc.Relookup? && !s'.cpus[c].pc.Unlock?
    ensures Carries(s, s', c) && CarriesOk(s', c)
  {
  }

  lemma LookupCarries(s: State, c: nat)
    requires At(s, c, Lookup)
    ensures Carries(s, DoLookup(s, c), c) && CarriesOk(DoLookup(s, c), c)
  {
    GoesOn(s, DoLookup(s, c), c);
  }

  lemma RelookupCarries(s: State, c: nat)
    requires At(s, c, Relookup) && CarriesOk(s, c)
    ensures Carries(s, DoRelookup(s, c), c) && CarriesOk(DoRelookup(s, c), c)
  {
    GoesOn(s, DoRelookup(s, c), c);
  }

  lemma LockCarries(s: State, c: nat)
    requires At(s, c, Lock)
    ensures Carries(s, DoLock(s, c), c) && CarriesOk(DoLock(s, c), c)
  {
    GoesOn(s, DoLock(s, c), c);
  }

  lemma AddCarries(s: State, c: nat)
    requires At(s, c, Add)
    ensures Carries(s, DoAdd(s, c), c) && CarriesOk(DoAdd(s, c), c)
  {
    GoesOn(s, DoAdd(s, c), c);
  }

  lemma IncLookupCarries(s: State, c: nat)
    requires At(s, c, IncLookup)
    ensures Carries(s, DoIncLookup(s, c), c) && CarriesOk(DoIncLookup(s, c), c)
  {
    GoesOn(s, DoIncLookup(s, c), c);
  }

  lemma IncAddCarries(s: State, c: nat)
    requires At(s, c, IncAdd)
    ensures Carries(s, DoIncAdd(s, c), c) && CarriesOk(DoIncAdd(s, c), c)
  {
    GoesOn(s, DoIncAdd(s, c), c);
  }

  lemma IncCreateCarries(cfg: X.Config, s: State, c: nat)
    requires At(s, c, IncCreate)
    ensures Carries(s, DoIncCreate(cfg, s, c), c) && CarriesOk(DoIncCreate(cfg, s, c), c)
  {
    GoesOn(s, DoIncCreate(cfg, s, c), c);
  }

  lemma IncRetryCarries(s: State, c: nat)
    requires At(s, c, IncRetry)
    ensures Carries(s, DoIncRetry(s, c), c) && CarriesOk(DoIncRetry(s, c), c)
  {
    GoesOn(s, DoIncRetry(s, c), c);
  }

  lemma BeforeLockCarries(cfg: X.Config, s: State, c: nat)
    requires OwnSettled(s, c) && Welcome(cfg, s, s.cpus[c].p.key) && CarriesOk(s, c)
    requires At(s, c, s.cpus[c].pc) && BeforeLock(s.cpus[c].pc)
    ensures Carries(s, ExecBeforeLock(cfg, s, c), c) && CarriesOk(ExecBeforeLock(cfg, s, c), c)
  {
    match s.cpus[c].pc
    case Lookup => LookupCarries(s, c);
    case Admit => AdmitCarries(cfg, s, c);
    case Create => CreateCarries(cfg, s, c);
    case Relookup => RelookupCarries(s, c);
    case IncLookup => IncLookupCarries(s, c);
    case IncAdd => IncAddCarries(s, c);
    case IncCreate => IncCreateCarries(cfg, s, c);
    case IncRetry => IncRetryCarries(s, c);
  }

  lemma FromLockCarries(cfg: X.Config, s: State, c: nat)
    requires cfg.populated && OwnSettled(s, c) && !s.cpus[c].pc.Idle?
    requires At(s, c, s.cpus[c].pc) && !BeforeLock(s.cpus[c].pc)
    ensures Carries(s, ExecFromLock(cfg, s, c), c) && CarriesOk(ExecFromLock(cfg, s, c), c)
  {
    match s.cpus[c].pc
    case Lock => LockCarries(s, c);
    case Check => CheckCarries(s, c);
    case Add => AddCarries(s, c);
    case Count => CountCarries(s, c);
    case WriteBack => WriteBackCarries(s, c);
    case Unlock => UnlockCarries(s, c);
    case ReadConfig => GoesOn(s, DoReadConfig(s, c), c);
    case Delete => GoesOn(s, DoDelete(s, c), c);
    case DecLookup => DecLookupCarries(cfg, s, c);
    case DecAdd => DecAddCarries(cfg, s, c);
  }

  lemma ExecCarries(cfg: X.Config, s: State, c: nat)
    requires cfg.populated && OwnSettled(s, c) && Welcome(cfg, s, s.cpus[c].p.key) && !s.cpus[c].pc.Idle? && CarriesOk(s, c)
    ensures Carries(s, Exec(cfg, s, c), c) && CarriesOk(Exec(cfg, s, c), c)
  {
    assert CpuShape(s.cpus[c], |s.heap|);
    if BeforeLock(s.cpus[c].pc) {
      BeforeLockCarries(cfg, s, c);
    } else {
      FromLockCarries(cfg, s, c);
    }
  }

  // ------------------------------------------------------------------ preservation

  lemma AbsorbedStays(s: State, s': State, c: nat, p: Packet)
    requires c < |s.cpus| && Follows(s, s', c) && Absorbed(s, p)
    ensures Absorbed(s', p)
  {
    var r :| 0 <= r < |s.heap| && p in s.heap[r].contribs;
    assert InstanceFollows(s.heap[r], s'.heap[r], r, s.cpus[c], s'.cpus[c]);
    assert p in s'.heap[r].contribs;
  }

  lemma NotLastStays(s: State, s': State, c: nat, r: nat, p: Packet)
    requires c < |s.cpus| && Follows(s, s', c) && r < |s.heap| && NotLast(s.heap[r], p)
    ensures NotLast(s'.heap[r], p)
  {
    assert InstanceFollows(s.heap[r], s'.heap[r], r, s.cpus[c], s'.cpus[c]);
    var k :| 0 <= k < |s.heap[r].contribs| && s.heap[r].contribs[k] == p && k != s.heap[r].slot.expected - 1;
    assert s'.heap[r].contribs[k] == p;
  }

  lemma DroppedEarlyStays(s: State, s': State, c: nat, p: Packet)
    requires c < |s.cpus| && Follows(s, s', c) && DroppedEarly(s, p)
    ensures DroppedEarly(s', p)
  {
    var r :| 0 <= r < |s.heap| && NotLast(s.heap[r], p);
    NotLastStays(s, s', c, r, p);
  }

  lemma AnsweredStays(s: State, s': State, c: nat, p: Packet)
    requires c < |s.cpus| && Follows(s, s', c) && Answered(s, p)
    ensures Answered(s', p)
  {
    var k :| 0 <= k < |s.log| && Answers(s.log[k], p.key) && s.log[k].p == p;
    assert s'.log[..|s.log|][k] == s.log[k];
    assert s'.log[k] == s.log[k];
  }

  /** A packet on another CPU stays where it is. */
  lemma ElsewhereStays(s: State, s': State, c: nat, p: Packet)
    requires c < |s.cpus| && Follows(s, s', c) && s.cpus[c].p != p && ArrivalOk(s, p)
    ensures ArrivalOk(s', p)
  {
    if Absorbed(s, p) {
      AbsorbedStays(s, s', c, p);
    } else {
      var d :| 0 <= d < |s.cpus| && Pending(s.cpus[d].pc) && s.cpus[d].p == p;
      assert s'.cpus[d] == s.cpus[d];
    }
    if Answered(s, p) {
      AnsweredStays(s, s', c, p);
    } else {
      var d :| 0 <= d < |s.cpus| && !s.cpus[d].pc.Idle? && s.cpus[d].p == p;
      assert s'.cpus[d] == s.cpus[d];
    }
  }

  /** The stepping CPU's own packet goes on or is answered. */
  lemma OwnStays(s: State, s': State, c: nat)
    requires c < |s.cpus| && !s.cpus[c].pc.Idle? && Follows(s, s', c) && Carries(s, s', c) && ArrivalOk(s, s.cpus[c].p)
    ensures ArrivalOk(s', s.cpus[c].p)
  {
    var p := s.cpus[c].p;
    if s'.cpus[c].pc.Idle? {
      assert Answers(s'.log[|s.log|], p.key) && s'.log[|s.log|].p == p;
      if !Absorbed(s, p) {
        var d :| 0 <= d < |s.cpus| && Pending(s.cpus[d].pc) && s.cpus[d].p == p;
        assert s'.cpus[d] == s.cpus[d];
      } else {
        AbsorbedStays(s, s', c, p);
      }
    } else {
      assert s'.cpus[c].p == p;
      OwnAwaits(s, s', c);
    }
  }

  lemma OwnAwaits(s: State, s': State, c: nat)
    requires c < |s.cpus| && Follows(s, s', c) && Carries(s, s', c) && !s'.cpus[c].pc.Idle?
    requires AwaitingSlot(s, s.cpus[c].p) || Absorbed(s, s.cpus[c].p)
    ensures AwaitingSlot(s', s.cpus[c].p) || Absorbed(s', s.cpus[c].p)
  {
    var p := s.cpus[c].p;
    if Absorbed(s, p) {
      AbsorbedStays(s, s', c, p);
    } else {
      var d :| 0 <= d < |s.cpus| && Pending(s.cpus[d].pc) && s.cpus[d].p == p;
      if d == c && !Pending(s'.cpus[c].pc) {
        assert p in s'.heap[s.cpus[c].ref].contribs;
      } else {
        assert Pending(s'.cpus[d].pc) && s'.cpus[d].p == p;
      }
    }
  }

  lemma OnceEachStays(s: State, s': State, c: nat, key: Key)
    requires OnceEach(s, key) && FromArrivals(s) && c < |s.cpus| && !s.cpus[c].pc.Idle? && Follows(s, s', c)
    requires s.cpus[c].p.key == key ==> Carries(s, s', c)
    ensures OnceEach(s', key)
  {
    assert InFlight(s, s.cpus[c].p);
    forall k | 0 <= k < |s.log| ensures s'.log[k] == s.log[k] {
      assert s'.log[..|s.log|][k] == s.log[k];
    }
    forall k | 0 <= k < |s'.log| && Answers(s'.log[k], key) ensures s'.log[k].p in s'.arrived && !InFlight(s', s'.log[k].p) {
      if k < |s.log| {
        assert !InFlight(s, s.log[k].p);
        assert forall d :: 0 <= d < |s.cpus| && d != c ==> s'.cpus[d] == s.cpus[d];
      }
    }
  }

  lemma DropsStayOk(s: State, s': State, c: nat, key: Key)
    requires DropsOk(s, key) && c < |s.cpus| && Follows(s, s', c)
    requires s.cpus[c].p.key == key ==> CarriesOk(s, c) && Carries(s, s', c)
    ensures DropsOk(s', key)
  {
    forall k | 0 <= k < |s'.log| && Answers(s'.log[k], key) && s'.log[k].Drop? ensures DroppedEarly(s', s'.log[k].p) {
      if k < |s.log| {
        assert s'.log[..|s.log|][k] == s.log[k];
      } else {
        assert NotLast(s.heap[s.cpus[c].ref], s.cpus[c].p);
      }
      DroppedEarlyStays(s, s', c, s'.log[k].p);
    }
  }

  lemma CarriesStays(s: State, s': State, c: nat, d: nat)
    requires OwnSettled(s, d) && c < |s.cpus| && Follows(s, s', c) && d != c && CarriesOk(s, d)
    ensures CarriesOk(s', d)
  {
    var u := s.cpus[d];
    if u.pc.Relookup? {
      PendingKeyStays(s, s', c, d);
    }
    if u.pc.Unlock? && !u.done {
      NotLastStays(s, s', c, u.ref, u.p);
    }
  }

  lemma AccountedStays(s: State, s': State, c: nat, key: Key)
    requires Accounted(s, key) && c < |s.cpus| && !s.cpus[c].pc.Idle? && Follows(s, s', c)
    requires s.cpus[c].p.key == key ==> Carries(s, s', c)
    ensures Accounted(s', key)
  {
    forall k | 0 <= k < |s'.arrived| && s'.arrived[k].key == key ensures ArrivalOk(s', s'.arrived[k]) {
      assert ArrivalOk(s, s.arrived[k]);
      if s.cpus[c].p == s.arrived[k] {
        OwnStays(s, s', c);
      } else {
        ElsewhereStays(s, s', c, s.arrived[k]);
      }
    }
  }

  /** A step on any packet, of this key or another. */
  lemma DeliveryStays(s: State, s': State, c: nat, key: Key)
    requires Settled(s, key) && DeliveryInv(s, key) && c < |s.cpus| && !s.cpus[c].pc.Idle? && Follows(s, s', c)
    requires s.cpus[c].p.key == key ==> Carries(s, s', c) && CarriesOk(s', c)
    ensures DeliveryInv(s', key)
  {
    AccountedStays(s, s', c, key);
    OnceEachStays(s, s', c, key);
    DropsStayOk(s, s', c, key);
    forall d | 0 <= d < |s'.cpus| && s'.cpus[d].p.key == key ensures CarriesOk(s', d) {
      if d != c {
        CarriesStays(s, s', c, d);
      }
    }
  }

  lemma ExecKeepsDelivery(cfg: X.Config, s: State, c: nat, key: Key)
    requires cfg.populated && Settled(s, key) && Welcome(cfg, s, key) && c < |s.cpus| && DeliveryInv(s, key)
    ensures DeliveryInv(Exec(cfg, s, c), key)
  {
    if !s.cpus[c].pc.Idle? {
      if s.cpus[c].p.key == key {
        ExecCarries(cfg, s, c);
      }
      DeliveryStays(s, Exec(cfg, s, c), c, key);
    }
  }

  // -------------------------------------------------------------------------- runs

  lemma NewPacket(ps: seq<Packet>, p: Packet)
    requires OncePerWorker(ps + [p], p.key)
    ensures p !in ps
  {
    if p in ps {
      NewIsDifferent(ps, p, p);
    }
  }

  lemma ArrivalOthers(s: State, s': State, c: nat, p: Packet, q: Packet)
    requires Received(s, s', c, p) && ArrivalOk(s, q)
    ensures ArrivalOk(s', q)
  {
    assert forall d :: 0 <= d < |s.cpus| && d != c ==> s'.cpus[d] == s.cpus[d];
    if AwaitingSlot(s, q) {
      var d :| 0 <= d < |s.cpus| && Pending(s.cpus[d].pc) && s.cpus[d].p == q;
      assert Pending(s'.cpus[d].pc) && s'.cpus[d].p == q;
    } else {
      var r :| 0 <= r < |s.heap| && q in s.heap[r].contribs;
      assert q in s'.heap[r].contribs;
    }
    if InFlight(s, q) {
      var d :| 0 <= d < |s.cpus| && !s.cpus[d].pc.Idle? && s.cpus[d].p == q;
      assert !s'.cpus[d].pc.Idle? && s'.cpus[d].p == q;
    } else {
      var k :| 0 <= k < |s.log| && Answers(s.log[k], q.key) && s.log[k].p == q;
      assert s'.log[k].p == q;
    }
  }

  lemma ArrivalOnceEach(s: State, s': State, c: nat, p: Packet, key: Key)
    requires Received(s, s', c, p) && OnceEach(s, key) && FromArrivals(s) && (p.key == key ==> p !in s.arrived)
    ensures OnceEach(s', key)
  {
    forall k | 0 <= k < |s'.log| && Answers(s'.log[k], key) ensures s'.log[k].p in s'.arrived && !InFlight(s', s'.log[k].p) {
      assert !InFlight(s, s.log[k].p);
      assert forall d :: 0 <= d < |s.cpus| && d != c ==> s'.cpus[d] == s.cpus[d];
    }
  }

  lemma ArrivalKeepsDelivery(s: State, s': State, c: nat, p: Packet, key: Key)
    requires Received(s, s', c, p) && FromArrivals(s) && OncePerWorker(s'.arrived, key) && DeliveryInv(s, key)
    ensures DeliveryInv(s', key)
  {
    if p.key == key {
      NewPacket(s.arrived, p);
    }
    forall k | 0 <= k < |s'.arrived| && s'.arrived[k].key == key ensures ArrivalOk(s', s'.arrived[k]) {
      if k < |s.arrived| {
        ArrivalOthers(s, s', c, p, s.arrived[k]);
      } else {
        assert Pending(s'.cpus[c].pc) && s'.cpus[c].p == s'.arrived[k];
      }
    }
    ArrivalOnceEach(s, s', c, p, key);
    forall k | 0 <= k < |s'.log| && Answers(s'.log[k], key) && s'.log[k].Drop? ensures DroppedEarly(s', s'.log[k].p) {
      var r :| 0 <= r < |s.heap| && NotLast(s.heap[r], s.log[k].p);
      assert NotLast(s'.heap[r], s'.log[k].p);
    }
    forall d | 0 <= d < |s'.cpus| && s'.cpus[d].p.key == key ensures CarriesOk(s', d) {
      assert d != c ==> CarriesOk(s, d);
    }
  }

  /** The parser's drop of a malformed packet answers for no parsed one. */
  lemma MalformedKeepsDelivery(s: State, p: Packet, key: Key)
    requires DeliveryInv(s, key)
    ensures DeliveryInv(s.(log := s.log + [Malformed(p)]), key)
  {
    var s' := s.(log := s.log + [Malformed(p)]);
    forall k | 0 <= k < |s'.arrived| && s'.arrived[k].key == key ensures ArrivalOk(s', s'.arrived[k]) {
      MalformedKeepsArrival(s, p, s.arrived[k]);
    }
    assert forall q :: InFlight(s', q) <==> InFlight(s, q);
    forall k | 0 <= k < |s'.log| && Answers(s'.log[k], key) && s'.log[k].Drop? ensures DroppedEarly(s', s'.log[k].p) {
      var r :| 0 <= r < |s.heap| && NotLast(s.heap[r], s.log[k].p);
    }
    assert forall d :: 0 <= d < |s.cpus| && s.cpus[d].p.key == key ==> CarriesOk(s, d) && CarriesOk(s', d);
  }

  lemma MalformedKeepsArrival(s: State, p: Packet, q: Packet)
    requires ArrivalOk(s, q)
    ensures ArrivalOk(s.(log := s.log + [Malformed(p)]), q)
  {
    var s' := s.(log := s.log + [Malformed(p)]);
    if AwaitingSlot(s, q) {
      var c :| 0 <= c < |s.cpus| && Pending(s.cpus[c].pc) && s.cpus[c].p == q;
      assert Pending(s'.cpus[c].pc);
    } else {
      var r :| 0 <= r < |s.heap| && q in s.heap[r].contribs;
      assert q in s'.heap[r].contribs;
    }
    if InFlight(s, q) {
      var c :| 0 <= c < |s.cpus| && !s.cpus[c].pc.Idle? && s.cpus[c].p == q;
      assert !s'.cpus[c].pc.Idle?;
    } else {
      var k :| 0 <= k < |s.log| && Answers(s.log[k], q.key) && s.log[k].p == q;
      assert Answers(s'.log[k], q.key);
    }
  }

  lemma ReceiveKeepsDelivery(s: State, c: nat, p: Packet, key: Key)
    requires c < |s.cpus| && PointersOk(s) && FromArrivals(s) && DeliveryInv(s, key) && OncePerWorker(Receive(s, c, p).arrived, key)
    ensures DeliveryInv(Receive(s, c, p), key)
  {
    if s.cpus[c].pc.Idle? {
      if Bounded(p) {
        ArrivalKeepsDelivery(s, Receive(s, c, p), c, p, key);
      } else {
        MalformedKeepsDelivery(s, p, key);
      }
    }
  }

  lemma BootDelivers(cpus: nat, key: Key)
    ensures DeliveryInv(Boot(cpus), key)
  {
  }

  lemma NeverRefusedFront(cfg: X.Config, cpus: nat, actions: seq<Action>, key: Key)
    requires actions != [] && NeverRefused(cfg, cpus, actions, key)
    ensures NeverRefused(cfg, cpus, actions[..|actions| - 1], key)
    ensures Welcome(cfg, Run(cfg, cpus, actions[..|actions| - 1]), key)
  {
    var front := actions[..|actions| - 1];
    forall k | 0 <= k <= |front| ensures WelcomeAfter(cfg, cpus, front[..k], key) {
      assert front[..k] == actions[..k];
    }
    assert WelcomeAfter(cfg, cpus, actions[..|front|], key);
  }

  lemma ApplyKeepsDelivery(cfg: X.Config, s: State, a: Action, key: Key)
    requires cfg.populated && Settled(s, key) && Welcome(cfg, s, key) && DeliveryInv(s, key) && OncePerWorker(Apply(cfg, s, a).arrived, key)
    ensures DeliveryInv(Apply(cfg, s, a), key)
  {
    if a.c < |s.cpus| {
      if a.Go? {
        ExecKeepsDelivery(cfg, s, a.c, key);
      } else {
        ReceiveKeepsDelivery(s, a.c, a.p, key);
      }
    }
  }

  lemma {:induction false} RunDelivers(cfg: X.Config, cpus: nat, actions: seq<Action>, key: Key)
    requires cfg.populated && OncePerWorker(Run(cfg, cpus, actions).arrived, key) && NeverRefused(cfg, cpus, actions, key)
    ensures DeliveryInv(Run(cfg, cpus, actions), key) && Settled(Run(cfg, cpus, actions), key)
  {
    RunSettled(cfg, cpus, actions, key);
    if actions == [] {
      BootDelivers(cpus, key);
    } else {
      var before, a := actions[..|actions| - 1], actions[|actions| - 1];
      var s := Run(cfg, cpus, before);
      ApplyGrowsStream(cfg, s, a);
      OncePrefix(s.arrived, Apply(cfg, s, a).arrived, key);
      NeverRefusedFront(cfg, cpus, actions, key);
      RunDelivers(cfg, cpus, before, key);
      ApplyKeepsDelivery(cfg, s, a, key);
    }
  }

  // --------------------------------------------------------------- one key's verdicts

  ghost function ForKey(ps: seq<Packet>, key: Key): seq<Packet> {
    if ps == [] then []
    else ForKey(ps[..|ps| - 1], key) + if ps[|ps| - 1].key == key then [ps[|ps| - 1]] else []
  }

  /** The verdicts on parsed packets of the key. */
  ghost function VerdictsFor(log: seq<Verdict>, key: Key): seq<Verdict> {
    if log == [] then []
    else VerdictsFor(log[..|log| - 1], key) + if Answers(log[|log| - 1], key) then [log[|log| - 1]] else []
  }

  ghost function Packets(vs: seq<Verdict>): seq<Packet> {
    seq(|vs|, k requires 0 <= k < |vs| => vs[k].p)
  }

  lemma {:induction false} ForKeyMembers(ps: seq<Packet>, key: Key, p: Packet)
    ensures p in ForKey(ps, key) <==> p in ps && p.key == key
  {
    if ps != [] {
      ForKeyMembers(ps[..|ps| - 1], key, p);
      assert ps == ps[..|ps| - 1] + [ps[|ps| - 1]];
    }
  }

  lemma {:induction false} ForKeyDistinct(ps: seq<Packet>, key: Key)
    requires OncePerWorker(ps, key)
    ensures DistinctWorkers(ForKey(ps, key))
  {
    if ps != [] {
      var front, last := ps[..|ps| - 1], ps[|ps| - 1];
      OncePrefix(front, ps, key);
      ForKeyDistinct(front, key);
      assert ps == front + [last];
      forall k | 0 <= k < |ForKey(front, key)| && last.key == key ensures ForKey(front, key)[k].worker != last.worker {
        ForKeyMembers(front, key, ForKey(front, key)[k]);
        NewIsDifferent(front, last, ForKey(front, key)[k]);
      }
    }
  }

  lemma {:induction false} VerdictsForMembers(log: seq<Verdict>, key: Key, v: Verdict)
    ensures v in VerdictsFor(log, key) <==> v in log && Answers(v, key)
  {
    if log != [] {
      VerdictsForMembers(log[..|log| - 1], key, v);
      assert log == log[..|log| - 1] + [log[|log| - 1]];
    }
  }

  lemma SameWorkerSamePacket(ps: seq<Packet>, p: Packet, q: Packet)
    requires OncePerWorker(ps, p.key) && p in ps && q in ps && p.key == q.key && p.worker == q.worker
    ensures p == q
  {
    var i :| 0 <= i < |ps| && ps[i] == p;
    var j :| 0 <= j < |ps| && ps[j] == q;
  }

  ghost predicate AnsweredApart(log: seq<Verdict>, key: Key, arrived: seq<Packet>) {
    && (forall k :: 0 <= k < |log| && Answers(log[k], key) ==> log[k].p in arrived)
    && (forall k, l :: 0 <= k < l < |log| && Answers(log[k], key) && Answers(log[l], key) ==> log[k].p != log[l].p)
  }

  lemma {:induction false} VerdictWorkersDistinct(log: seq<Verdict>, key: Key, arrived: seq<Packet>)
    requires OncePerWorker(arrived, key) && AnsweredApart(log, key, arrived)
    ensures DistinctWorkers(Packets(VerdictsFor(log, key)))
  {
    if log != [] {
      var front, last := log[..|log| - 1], log[|log| - 1];
      VerdictWorkersDistinct(front, key, arrived);
      var ps := Packets(VerdictsFor(front, key));
      assert Packets(VerdictsFor(log, key)) == ps + if Answers(last, key) then [last.p] else [];
      forall k | 0 <= k < |ps| && Answers(last, key) ensures ps[k].worker != last.p.worker {
        var v := VerdictsFor(front, key)[k];
        VerdictsForMembers(front, key, v);
        var l :| 0 <= l < |front| && front[l] == v;
        assert log[l].p != last.p;
        if v.p.worker == last.p.worker {
          SameWorkerSamePacket(arrived, v.p, last.p);
        }
      }
    }
  }

  /** Each of `n` workers has sent its packet for this key. */
  ghost predicate EachSent(ps: seq<Packet>, key: Key, n: int) {
    forall w :: 0 <= w < n ==> Sent(ps, key, n, w)
  }

  ghost predicate Sent(ps: seq<Packet>, key: Key, n: int, w: int) {
    exists k :: 0 <= k < |ps| && ps[k].key == key && ps[k].numWorkers == n && ps[k].worker == w
  }

  /** Workers 0 to n - 1 and no others, each once, are n packets. */
  lemma ExactlyN(ps: seq<Packet>, n: nat)
    requires DistinctWorkers(ps) && forall k :: 0 <= k < |ps| ==> ps[k].worker < n
    requires forall w :: 0 <= w < n ==> Contributed(ps, w)
    ensures |ps| == n
  {
    WorkersBelow(ps, n);
    WorkerSetSize(ps);
    forall w | w in Below(n) ensures w in WorkerSet(ps) {
      assert Contributed(ps, w);
    }
    SubsetSize(Below(n), WorkerSet(ps));
  }

  // ------------------------------------------------------------- when all CPUs are done

  ghost predicate SlotAtRest(s: State, r: nat)
    requires r < |s.heap|
  {
    var i := s.heap[r];
    && DistinctWorkers(i.contribs) && MatchesStream(i, s.arrived)
    && (forall k :: 0 <= k < |i.contribs| ==> i.contribs[k] in s.arrived && i.contribs[k].key == i.key)
    && (|i.contribs| >= i.slot.expected ==> i.removed)
  }

  ghost predicate VerdictAtRest(s: State, v: Verdict) {
    && v.p in s.arrived
    && (v.Tx? ==> v.ref < |s.heap| && Forwardable(s.heap[v.ref], v.p, v.values, |v.values|))
    && (v.Drop? ==> DroppedEarly(s, v.p))
  }

  ghost predicate ArrivalAtRest(s: State, p: Packet) {
    Absorbed(s, p) && Answered(s, p)
  }

  ghost predicate MapAtRest(s: State) {
    forall k :: k in s.slotMap ==> s.slotMap[k] < |s.heap| && s.heap[s.slotMap[k]].key == k && !s.heap[s.slotMap[k]].removed
  }

  /** What remains of the invariants once every CPU is idle. */
  ghost predicate AtRest(s: State, key: Key) {
    && OncePerWorker(s.arrived, key) && OneInstance(s, key) && MapAtRest(s)
    && (forall r :: 0 <= r < |s.heap| ==> SlotAtRest(s, r))
    && (forall k :: 0 <= k < |s.log| && Answers(s.log[k], key) ==> VerdictAtRest(s, s.log[k]))
    && AnsweredApart(s.log, key, s.arrived)
    && (forall k :: 0 <= k < |s.arrived| && s.arrived[k].key == key ==> ArrivalAtRest(s, s.arrived[k]))
  }

  lemma SlotsComeToRest(s: State, r: nat)
    requires Safe(s) && FromArrivals(s) && Quiescent(s) && r < |s.heap|
    ensures SlotAtRest(s, r)
  {
    assert InstanceOk(s, r);
  }

  lemma MapComesToRest(s: State)
    requires Safe(s)
    ensures MapAtRest(s)
  {
    forall k | k in s.slotMap
      ensures s.slotMap[k] < |s.heap| && s.heap[s.slotMap[k]].key == k && !s.heap[s.slotMap[k]].removed
    {
      assert InstanceOk(s, s.slotMap[k]);
    }
  }

  lemma ComesToRest(s: State, key: Key)
    requires Settled(s, key) && DeliveryInv(s, key) && Quiescent(s)
    ensures AtRest(s, key)
  {
    forall r | 0 <= r < |s.heap| ensures SlotAtRest(s, r) {
      SlotsComeToRest(s, r);
    }
    MapComesToRest(s);
    VerdictsComeToRest(s, key);
    ArrivalsComeToRest(s, key);
  }

  lemma VerdictsComeToRest(s: State, key: Key)
    requires LogOk(s) && OnceEach(s, key) && DropsOk(s, key)
    ensures forall k :: 0 <= k < |s.log| && Answers(s.log[k], key) ==> VerdictAtRest(s, s.log[k])
  {
    forall k | 0 <= k < |s.log| && Answers(s.log[k], key) ensures VerdictAtRest(s, s.log[k]) {
      assert VerdictOk(s.heap, s.log[k]);
    }
  }

  lemma ArrivalsComeToRest(s: State, key: Key)
    requires Accounted(s, key) && Quiescent(s)
    ensures forall k :: 0 <= k < |s.arrived| && s.arrived[k].key == key ==> ArrivalAtRest(s, s.arrived[k])
  {
    forall k | 0 <= k < |s.arrived| && s.arrived[k].key == key ensures ArrivalAtRest(s, s.arrived[k]) {
      assert ArrivalOk(s, s.arrived[k]);
      assert !AwaitingSlot(s, s.arrived[k]) && !InFlight(s, s.arrived[k]);
    }
  }

  lemma AbsorbedHere(s: State, r: nat, p: Packet)
    requires r < |s.heap| && AtRest(s, s.heap[r].key) && p in s.arrived && p.key == s.heap[r].key
    ensures p in s.heap[r].contribs
  {
    var k :| 0 <= k < |s.arrived| && s.arrived[k] == p;
    assert ArrivalAtRest(s, s.arrived[k]);
    var q :| 0 <= q < |s.heap| && p in s.heap[q].contribs;
    assert SlotAtRest(s, q);
  }

  lemma RestAgrees(s: State, r: nat, p: Packet)
    requires r < |s.heap| && AtRest(s, s.heap[r].key) && p in s.arrived && p.key == s.heap[r].key
    ensures p.numWorkers == s.heap[r].slot.expected && |p.values| == s.heap[r].slot.chunkLen && p.worker < p.numWorkers
  {
    assert SlotAtRest(s, r);
    AgreesWithStream(s, r, p);
  }

  /** Some slot took the key's packets. */
  lemma SlotOf(s: State, key: Key, n: nat) returns (r: nat)
    requires AtRest(s, key) && 1 <= n && EachSent(s.arrived, key, n)
    ensures r < |s.heap| && s.heap[r].key == key && s.heap[r].slot.expected == n
  {
    assert Sent(s.arrived, key, n, 0);
    var k :| 0 <= k < |s.arrived| && s.arrived[k].key == key && s.arrived[k].numWorkers == n && s.arrived[k].worker == 0;
    assert ArrivalAtRest(s, s.arrived[k]);
    r :| 0 <= r < |s.heap| && s.arrived[k] in s.heap[r].contribs;
    assert SlotAtRest(s, r);
    RestAgrees(s, r, s.arrived[k]);
  }

  /** With all packets of a key in, its slot heard from every worker, and left the map. */
  lemma SlotFinished(s: State, r: nat)
    requires r < |s.heap| && AtRest(s, s.heap[r].key)
    requires s.heap[r].slot.expected >= 1 && EachSent(s.arrived, s.heap[r].key, s.heap[r].slot.expected)
    ensures |s.heap[r].contribs| == s.heap[r].slot.expected && s.heap[r].key !in s.slotMap
  {
    var i := s.heap[r];
    var n := i.slot.expected;
    assert SlotAtRest(s, r);
    forall w | 0 <= w < n ensures Contributed(i.contribs, w) {
      assert Sent(s.arrived, i.key, n, w);
      var l :| 0 <= l < |s.arrived| && s.arrived[l].key == i.key && s.arrived[l].numWorkers == n && s.arrived[l].worker == w;
      AbsorbedHere(s, r, s.arrived[l]);
    }
    forall l | 0 <= l < |i.contribs| ensures i.contribs[l].worker < n {
      RestAgrees(s, r, i.contribs[l]);
    }
    ExactlyN(i.contribs, n);
  }

  lemma BelowFanIn(ps: seq<Packet>, key: Key, n: nat, p: Packet)
    requires OncePerWorker(ps, key) && p in ps && p.key == key && Sent(ps, key, n, 0)
    ensures p.worker < n
  {
    var k :| 0 <= k < |ps| && ps[k].key == key && ps[k].numWorkers == n && ps[k].worker == 0;
    var l :| 0 <= l < |ps| && ps[l] == p;
  }

  lemma AnsweredBy(s: State, p: Packet) returns (k: nat)
    requires AtRest(s, p.key) && p in s.arrived
    ensures k < |VerdictsFor(s.log, p.key)| && VerdictsFor(s.log, p.key)[k].p == p
  {
    var l :| 0 <= l < |s.arrived| && s.arrived[l] == p;
    assert ArrivalAtRest(s, s.arrived[l]);
    var m :| 0 <= m < |s.log| && Answers(s.log[m], p.key) && s.log[m].p == p;
    VerdictsForMembers(s.log, p.key, s.log[m]);
    k :| 0 <= k < |VerdictsFor(s.log, p.key)| && VerdictsFor(s.log, p.key)[k] == s.log[m];
  }

  lemma VerdictBelongs(s: State, key: Key, k: nat)
    requires AtRest(s, key) && k < |VerdictsFor(s.log, key)|
    ensures var v := VerdictsFor(s.log, key)[k];
            v in s.log && Answers(v, key) && VerdictAtRest(s, v)
  {
    var v := VerdictsFor(s.log, key)[k];
    VerdictsForMembers(s.log, key, v);
    var l :| 0 <= l < |s.log| && s.log[l] == v;
    assert VerdictAtRest(s, s.log[l]);
  }

  lemma AnsweredOnce(s: State, key: Key, n: nat)
    requires AtRest(s, key) && 1 <= n && EachSent(s.arrived, key, n)
    ensures |VerdictsFor(s.log, key)| == n && DistinctWorkers(Packets(VerdictsFor(s.log, key)))
  {
    var vs := VerdictsFor(s.log, key);
    VerdictWorkersDistinct(s.log, key, s.arrived);
    forall k | 0 <= k < |vs| ensures vs[k].p.worker < n {
      VerdictBelongs(s, key, k);
      assert Sent(s.arrived, key, n, 0);
      BelowFanIn(s.arrived, key, n, vs[k].p);
    }
    forall w | 0 <= w < n ensures Contributed(Packets(vs), w) {
      assert Sent(s.arrived, key, n, w);
      var l :| 0 <= l < |s.arrived| && s.arrived[l].key == key && s.arrived[l].numWorkers == n && s.arrived[l].worker == w;
      var m := AnsweredBy(s, s.arrived[l]);
      assert Packets(vs)[m].worker == w;
    }
    ExactlyN(Packets(vs), n);
  }

  /** The packets of the key that arrived are the ones its slot absorbed. */
  lemma AllAbsorbed(s: State, r: nat)
    requires r < |s.heap| && AtRest(s, s.heap[r].key)
    ensures multiset(ForKey(s.arrived, s.heap[r].key)) == multiset(s.heap[r].contribs)
    ensures DistinctWorkers(ForKey(s.arrived, s.heap[r].key)) && |ForKey(s.arrived, s.heap[r].key)| == |s.heap[r].contribs|
  {
    var key, contribs := s.heap[r].key, s.heap[r].contribs;
    assert SlotAtRest(s, r);
    ForKeyDistinct(s.arrived, key);
    forall p ensures p in ForKey(s.arrived, key) <==> p in contribs {
      ForKeyMembers(s.arrived, key, p);
      if p in s.arrived && p.key == key {
        AbsorbedHere(s, r, p);
      }
    }
    SameElementsSameMultiset(ForKey(s.arrived, key), contribs);
    assert |multiset(ForKey(s.arrived, key))| == |multiset(contribs)|;
  }

  /** XDP_TX with the sum over all the key's packets. */
  ghost predicate ForwardsAll(v: Verdict, arrived: seq<Packet>, key: Key, n: int) {
    v.Tx? && SumsDistinctWorkers(v.values, ForKey(arrived, key), n, key, arrived)
  }

  lemma DroppedIsNotClosing(s: State, q: nat, r: nat, p: Packet)
    requires q < |s.heap| && r < |s.heap| && AtRest(s, s.heap[r].key) && NotLast(s.heap[q], p)
    requires |s.heap[r].contribs| == s.heap[r].slot.expected > 0
    ensures p != s.heap[r].contribs[s.heap[r].slot.expected - 1]
  {
    assert SlotAtRest(s, q) && SlotAtRest(s, r);
    var k :| 0 <= k < |s.heap[q].contribs| && s.heap[q].contribs[k] == p && k != s.heap[q].slot.expected - 1;
    assert p.key == s.heap[q].key;
  }

  lemma ClosingIsForwarded(s: State, r: nat, v: Verdict)
    requires r < |s.heap| && AtRest(s, s.heap[r].key) && VerdictAtRest(s, v) && !v.Malformed?
    requires |s.heap[r].contribs| == s.heap[r].slot.expected > 0 && v.p == s.heap[r].contribs[s.heap[r].slot.expected - 1]
    ensures v.Tx? && v.ref == r
  {
    assert SlotAtRest(s, r);
    if v.Drop? {
      var q :| 0 <= q < |s.heap| && NotLast(s.heap[q], v.p);
      DroppedIsNotClosing(s, q, r, v.p);
    }
  }

  lemma ForwardIsWholeSum(s: State, v: Verdict)
    requires VerdictAtRest(s, v) && v.Tx? && AtRest(s, s.heap[v.ref].key)
    requires |s.heap[v.ref].contribs| == s.heap[v.ref].slot.expected > 0
    ensures ForwardsAll(v, s.arrived, s.heap[v.ref].key, s.heap[v.ref].slot.expected)
  {
    var i := s.heap[v.ref];
    var ps := ForKey(s.arrived, i.key);
    assert i.contribs[..i.slot.expected] == i.contribs;
    AllAbsorbed(s, v.ref);
    forall l | 0 <= l < |v.values| ensures v.values[l] == Wrap(LaneSum(ps, l)) {
      LaneSumPermutation(ps, i.contribs, l);
    }
    forall l | 0 <= l < |ps| ensures ps[l] in s.arrived && ps[l].key == i.key && |ps[l].values| == |v.values| {
      ForKeyMembers(s.arrived, i.key, ps[l]);
      RestAgrees(s, v.ref, ps[l]);
    }
  }

  lemma OthersDrop(s: State, r: nat, v: Verdict)
    requires r < |s.heap| && AtRest(s, s.heap[r].key) && VerdictAtRest(s, v) && Answers(v, s.heap[r].key)
    requires |s.heap[r].contribs| == s.heap[r].slot.expected > 0 && v.p != s.heap[r].contribs[s.heap[r].slot.expected - 1]
    ensures v.Drop?
  {
  }

  /** Exactly one of these verdicts forwards the whole sum; the others drop. */
  ghost predicate OneForwards(vs: seq<Verdict>, arrived: seq<Packet>, key: Key, n: int) {
    && |vs| == n
    && exists k :: 0 <= k < n && ForwardsAll(vs[k], arrived, key, n) && forall l :: 0 <= l < n && l != k ==> vs[l].Drop?
  }

  lemma OneCloses(s: State, r: nat, n: nat)
    requires r < |s.heap| && AtRest(s, s.heap[r].key) && n >= 1 && s.heap[r].slot.expected == n == |s.heap[r].contribs|
    requires |VerdictsFor(s.log, s.heap[r].key)| == n && DistinctWorkers(Packets(VerdictsFor(s.log, s.heap[r].key)))
    ensures OneForwards(VerdictsFor(s.log, s.heap[r].key), s.arrived, s.heap[r].key, n)
  {
    var key := s.heap[r].key;
    var vs := VerdictsFor(s.log, key);
    var last := s.heap[r].contribs[n - 1];
    assert SlotAtRest(s, r);
    var k := AnsweredBy(s, last);
    VerdictBelongs(s, key, k);
    ClosingIsForwarded(s, r, vs[k]);
    ForwardIsWholeSum(s, vs[k]);
    forall l | 0 <= l < n && l != k ensures vs[l].Drop? {
      VerdictBelongs(s, key, l);
      assert Packets(vs)[l].worker != Packets(vs)[k].worker;
      OthersDrop(s, r, vs[l]);
    }
  }

  /**
   When each of n workers has sent once for a key, its packets were never refused
   admission, and every CPU is done, then the key's n packets were answered by
   exactly one XDP_TX, with the lane sums over all of them, and n - 1 drops, and its
   slot is gone. Packets of other keys are arbitrary, retransmissions included.
   */
  lemma DeliveredUnlessRefused(cfg: X.Config, cpus: nat, actions: seq<Action>, key: Key, n: nat)
    requires cfg.populated && NeverRefused(cfg, cpus, actions, key)
    requires var s := Run(cfg, cpus, actions);
             OncePerWorker(s.arrived, key) && Quiescent(s) && 1 <= n && EachSent(s.arrived, key, n)
    ensures var s := Run(cfg, cpus, actions);
            key !in s.slotMap && OneForwards(VerdictsFor(s.log, key), s.arrived, key, n)
  {
    var s := Run(cfg, cpus, actions);
    RunDelivers(cfg, cpus, actions, key);
    ComesToRest(s, key);
    var r := SlotOf(s, key, n);
    SlotFinished(s, r);
    AnsweredOnce(s, key, n);
    OneCloses(s, r, n);
  }

  ghost predicate RoomAfter(cfg: X.Config, cpus: nat, actions: seq<Action>) {
    |Run(cfg, cpus, actions).slotMap| < cfg.maxSlots
  }

  /** In particular, with the config present, no quota, and a slot_map that is never full. */
  lemma OneForwardRestDropped(cfg: X.Config, cpus: nat, actions: seq<Action>, key: Key, n: nat)
    requires cfg.populated && cfg.quota == 0 && forall k :: 0 <= k <= |actions| ==> RoomAfter(cfg, cpus, actions[..k])
    requires var s := Run(cfg, cpus, actions);
             OncePerWorker(s.arrived, key) && Quiescent(s) && 1 <= n && EachSent(s.arrived, key, n)
    ensures var s := Run(cfg, cpus, actions);
            key !in s.slotMap && OneForwards(VerdictsFor(s.log, key), s.arrived, key, n)
  {
    forall k | 0 <= k <= |actions| ensures WelcomeAfter(cfg, cpus, actions[..k], key) {
      assert RoomAfter(cfg, cpus, actions[..k]);
    }
    DeliveredUnlessRefused(cfg, cpus, actions, key, n);
  }
}
