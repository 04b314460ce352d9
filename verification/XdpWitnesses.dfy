/**
 Runs that show the quota results cannot be stronger: the overshoot bound is
 reached on a harmless stream, one retransmission can leave a job charged for a
 slot that is gone, and enough of them let it hold any number of slots uncharged.
 */
module XdpWitnesses {
  import opened GradProto
  import opened SeenBitmap
  import opened XdpMachine
  import opened XdpSafety
  import opened XdpGuarantees
  import opened XdpOverrun
  import opened XdpQuota
  import opened XdpSolo
  import opened XdpExact
  import X = XdpProgram

  // ------------------------------------- a retransmission that overtakes the creator

  /** The only packet of a one-worker key. */
  function Lonely(key: Key): Packet {
    Packet(key, 0, 1, [])
  }

  const FIRST := Key(0, 0, 0)

  /**
   One retransmission is enough: every CPU is idle, slot_map is empty, and the
   job is still charged for a slot.
   */
  lemma RetransmissionLeaksQuota(cfg: X.Config) returns (actions: seq<Action>)
    requires 1 <= cfg.maxSlots && 1 <= cfg.maxJobs
    ensures var s := Run(cfg, 2, actions);
            && s.arrived == [Lonely(FIRST), Lonely(FIRST)] && Quiescent(s)
            && s.slotMap == map[] && s.jobs == map[FIRST.job := 1]
  {
    var ps := [Lonely(FIRST), Lonely(FIRST)];
    assert Overrun(ps, 0, [1]);
    var s1 := FillAllButOne(cfg, ps, 0, [1], 0);
    var s2 := LastCompletes(cfg, s1, ps, 0, [1], 0);
    var s3 := CreatorFinishes(cfg, s2, ps, 0, [1]);
    BothIdle(s3);
    actions :| Run(cfg, 2, actions) == s3;
  }

  lemma BothIdle(s: State)
    requires |s.cpus| == 2 && s.cpus[0].pc.Idle? && AllIdle(s, [1])
    ensures Quiescent(s)
  {
    assert [1][0] == 1;
  }

  // --------------------------------------------- a check that another CPU overtakes

  /** The first of the two packets a slot needs. */
  function Half(key: Key): Packet {
    Packet(key, 0, 2, [])
  }

  function Opener(round: u32): Packet {
    Half(Key(0, round, 0))
  }

  lemma OpenersDoNotOverrun()
    ensures NoOverrun([Opener(0), Opener(1)])
  {
    var ps := [Opener(0), Opener(1)];
    forall k: nat, ks: seq<nat> ensures !Overrun(ps, k, ks) {
      assert |ks| > 0 && k < 2 && ks[0] < 2 && ks[0] != k ==> !SameChunk(ps[k], ps[ks[0]]);
    }
  }

  /** CPU 0 has passed the quota check for round 0 and has created nothing yet. */
  ghost predicate Checked(s: State) {
    && PointersOk(s) && |s.cpus| == 2 && s.slotMap == map[] && s.heap == [] && s.jobs == map[] && s.arrived == [Opener(0)]
    && s.cpus[0].pc.Create? && s.cpus[0].p == Opener(0) && s.cpus[1].pc.Idle?
  }

  /** The state in which CPU 0 holds the first packet of all. */
  ghost predicate FirstArrived(s: State) {
    && At(s, 0, Lookup) && |s.cpus| == 2 && s.slotMap == map[] && s.heap == [] && s.jobs == map[] && s.arrived == [Opener(0)]
    && s.cpus[0].p == Opener(0) && s.cpus[1].pc.Idle?
  }

  lemma FirstReceived(cfg: X.Config)
    ensures FirstArrived(Receive(Boot(2), 0, Opener(0))) && Reached(cfg, 2, Receive(Boot(2), 0, Opener(0)))
  {
    assert Run(cfg, 2, []) == Boot(2);
    ReachedReceive(cfg, 2, Boot(2), 0, Opener(0));
  }

  lemma FirstChecked(cfg: X.Config, s: State) returns (t: State)
    requires FirstArrived(s)
    ensures Leads(cfg, 0, s, t) && Checked(t)
  {
    var s1 := Next(s, 0, Admit);
    LeadsOne(cfg, 0, s, s1);
    t := PassesCheck(cfg, s1);
    LeadsOn(cfg, 0, s, s1, t);
  }

  lemma PassesCheck(cfg: X.Config, s: State) returns (t: State)
    requires At(s, 0, Admit) && |s.cpus| == 2 && s.slotMap == map[] && s.heap == [] && s.jobs == map[] && s.arrived == [Opener(0)]
    requires s.cpus[0].p == Opener(0) && s.cpus[1].pc.Idle?
    ensures Leads(cfg, 0, s, t) && Checked(t)
  {
    t := DoAdmit(cfg, s, 0);
    LeadsOne(cfg, 0, s, t);
  }

  /** CPU 1 has opened and counted a slot for round 1 meanwhile. */
  ghost predicate SecondOpen(s: State) {
    && PointersOk(s) && |s.cpus| == 2 && s.slotMap.Keys == {Opener(1).key} && s.jobs == map[0 := 1] && s.arrived == [Opener(0), Opener(1)]
    && s.cpus[0].pc.Create? && s.cpus[0].p == Opener(0)
  }

  lemma OpensRoundOne(cfg: X.Config)
    requires cfg.maxSlots >= 1 && cfg.maxJobs >= 1
    ensures X.Open(cfg, X.Maps(map[], map[]), Opener(1)) == X.Maps(map[Opener(1).key := X.Fresh(Opener(1))], map[0 := 1])
  {
  }

  lemma SecondOpens(cfg: X.Config, s: State) returns (t: State)
    requires Checked(s) && cfg.maxSlots >= 1 && cfg.maxJobs >= 1
    ensures Leads(cfg, 1, Receive(s, 1, Opener(1)), t) && SecondOpen(t)
  {
    var s1 := Receive(s, 1, Opener(1));
    assert View(s1) == X.Maps(map[], map[]);
    OpensRoundOne(cfg);
    t := SoloOpen(cfg, s1, 1);
    assert View(t).slots.Keys == t.slotMap.Keys;
    LeadsKeepsArrived(cfg, 1, s1, t);
  }

  lemma FirstCreates(cfg: X.Config, s: State) returns (t: State)
    requires SecondOpen(s) && cfg.maxSlots >= 2
    ensures Leads(cfg, 0, s, t) && At(t, 0, IncLookup) && t.cpus[0].p == Opener(0)
    ensures t.arrived == s.arrived && t.jobs == s.jobs && t.slotMap.Keys == {Opener(0).key, Opener(1).key}
  {
    assert |s.slotMap| == |s.slotMap.Keys|;
    t := SoloWin(cfg, s, 0);
  }

  /** Both rounds are open and counted. */
  ghost predicate BothOpen(s: State) {
    s.jobs == map[0 := 2] && s.slotMap.Keys == {Opener(0).key, Opener(1).key} && s.arrived == [Opener(0), Opener(1)]
  }

  lemma FirstCounts(cfg: X.Config, s: State) returns (t: State)
    requires At(s, 0, IncLookup) && s.cpus[0].p == Opener(0) && s.jobs == map[0 := 1]
    requires s.slotMap.Keys == {Opener(0).key, Opener(1).key} && s.arrived == [Opener(0), Opener(1)]
    ensures Leads(cfg, 0, s, t) && BothOpen(t)
  {
    t := SoloIncrement(cfg, s, 0);
  }

  lemma BothOpenCounts(s: State)
    requires BothOpen(s)
    ensures NoOverrun(s.arrived) && X.Charge(s.jobs, 0) == 2 && |LiveKeys(s.slotMap, 0)| == 2
  {
    OpenersDoNotOverrun();
    assert LiveKeys(s.slotMap, 0) == {Opener(0).key, Opener(1).key};
  }

  lemma SecondReached(cfg: X.Config) returns (s: State)
    requires cfg.maxSlots >= 2 && cfg.maxJobs >= 1
    ensures Reached(cfg, 2, s) && SecondOpen(s)
  {
    FirstReceived(cfg);
    var s1 := FirstChecked(cfg, Receive(Boot(2), 0, Opener(0)));
    ReachedOn(cfg, 2, 0, Receive(Boot(2), 0, Opener(0)), s1);
    ReachedReceive(cfg, 2, s1, 1, Opener(1));
    s := SecondOpens(cfg, s1);
    ReachedOn(cfg, 2, 1, Receive(s1, 1, Opener(1)), s);
  }

  /**
   The overshoot bound is reached: on a stream without overruns, two CPUs hold a job
   with quota 1 at two slots, quota + CPUs - 1.
   */
  lemma OvershootReached(cfg: X.Config) returns (actions: seq<Action>)
    requires cfg.populated && cfg.quota == 1 && cfg.maxSlots >= 2 && cfg.maxJobs >= 1
    ensures var s := Run(cfg, 2, actions);
            && NoOverrun(s.arrived) && X.Charge(s.jobs, 0) == cfg.quota + 2 - 1 && |LiveKeys(s.slotMap, 0)| == cfg.quota + 2 - 1
  {
    var s := SecondReached(cfg);
    var t := FirstCreates(cfg, s);
    var u := FirstCounts(cfg, t);
    ReachedOn(cfg, 2, 0, s, t);
    ReachedOn(cfg, 2, 0, t, u);
    BothOpenCounts(u);
    actions :| Run(cfg, 2, actions) == u;
  }

  // ------------------------------------------------ retransmissions that lift the quota

  /** The job's counter is zero, or missing. */
  ghost predicate Blank(jobs: map<u32, u32>) {
    jobs == map[] || jobs == map[0 := 0]
  }

  /** These slots are live, nobody is at work, and the job is charged for none. */
  ghost predicate Uncharged(s: State, keys: set<Key>) {
    PointersOk(s) && |s.cpus| == 2 && Quiescent(s) && View(s).slots.Keys == keys && Blank(s.jobs)
  }

  /** Room for one more round, with two new keys, in a configuration whose quota lets two slots through. */
  ghost predicate RoomForRound(cfg: X.Config, keys: set<Key>, a: Key, b: Key) {
    && cfg.maxJobs >= 1 && cfg.quota != 1 && |keys| + 2 <= cfg.maxSlots
    && a !in keys && b !in keys && a != b && a.job == 0 && b.job == 0
  }

  lemma HalfOpens(cfg: X.Config, m: X.Maps, a: Key)
    requires cfg.maxJobs >= 1 && |m.slots| < cfg.maxSlots && a !in m.slots && a.job == 0 && Blank(m.jobs)
    ensures X.Open(cfg, m, Half(a)) == X.Maps(m.slots[a := X.Fresh(Half(a))], map[0 := 1])
  {
    assert m.jobs == map[0 := 0] ==> m.jobs[0 := 1] == map[0 := 1];
  }

  lemma HalfContributes(cfg: X.Config, m: X.Maps, a: Key)
    requires X.Shaped(m) && a in m.slots && m.slots[a] == X.Fresh(Half(a))
    ensures X.Contribute(cfg, m, Half(a)).1.slots.Keys == m.slots.Keys && X.Contribute(cfg, m, Half(a)).1.jobs == m.jobs
  {
    NoneHasNone(0);
  }

  lemma HalfStep(cfg: X.Config, m: X.Maps, a: Key)
    requires cfg.maxJobs >= 1 && |m.slots| < cfg.maxSlots && X.Shaped(m) && a !in m.slots && a.job == 0 && Blank(m.jobs)
    ensures X.Step(cfg, m, Half(a)).1.slots.Keys == m.slots.Keys + {a} && X.Step(cfg, m, Half(a)).1.jobs == map[0 := 1]
  {
    HalfOpens(cfg, m, a);
    HalfContributes(cfg, X.Open(cfg, m, Half(a)), a);
  }

  /** One more slot is open and counted. */
  ghost predicate Charged(s: State, keys: set<Key>) {
    PointersOk(s) && |s.cpus| == 2 && Quiescent(s) && View(s).slots.Keys == keys && s.jobs == map[0 := 1]
  }

  lemma RoundOpens(cfg: X.Config, s: State, keys: set<Key>, a: Key, b: Key) returns (t: State)
    requires RoomForRound(cfg, keys, a, b) && Reached(cfg, 2, s) && Uncharged(s, keys)
    ensures Reached(cfg, 2, t) && Charged(t, keys + {a})
  {
    ReachedIsSafe(cfg, 2, s);
    ReachedReceive(cfg, 2, s, 0, Half(a));
    t := SoloPacket(cfg, s, 0, Half(a));
    ReachedOn(cfg, 2, 0, Receive(s, 0, Half(a)), t);
    assert |View(s).slots| == |View(s).slots.Keys|;
    HalfStep(cfg, View(s), a);
  }

  /** CPU 0 holds the only packet of `b` at this step, and CPU 1 is idle. */
  ghost predicate LonelyAt(s: State, pc: Pc, keys: set<Key>, b: Key) {
    && |s.cpus| == 2 && At(s, 0, pc) && s.cpus[0].p == Lonely(b) && s.cpus[1].pc.Idle?
    && s.slotMap.Keys == keys && s.jobs == map[0 := 1]
  }

  lemma LonelyArrives(cfg: X.Config, s: State, keys: set<Key>, b: Key)
    requires Charged(s, keys)
    ensures LonelyAt(Receive(s, 0, Lonely(b)), Lookup, keys, b)
  {
    assert View(s).slots.Keys == s.slotMap.Keys;
  }

  lemma LonelyMisses(cfg: X.Config, s: State, keys: set<Key>, b: Key) returns (t: State)
    requires LonelyAt(s, Lookup, keys, b) && b !in keys
    ensures Leads(cfg, 0, s, t) && LonelyAt(t, Admit, keys, b)
  {
    t := DoLookup(s, 0);
    LeadsOne(cfg, 0, s, t);
  }

  lemma LonelyAdmitted(cfg: X.Config, s: State, keys: set<Key>, b: Key) returns (t: State)
    requires cfg.quota != 1 && LonelyAt(s, Admit, keys, b) && b.job == 0
    ensures Leads(cfg, 0, s, t) && LonelyAt(t, Create, keys, b)
  {
    t := DoAdmit(cfg, s, 0);
    LeadsOne(cfg, 0, s, t);
  }

  /** CPU 0 has created this one-worker slot and not looked it up again. */
  ghost predicate LonelyCreated(s: State, keys: set<Key>, b: Key) {
    && LonelyAt(s, Relookup, keys + {b}, b) && s.cpus[0].won
    && b in View(s).slots && View(s).slots[b] == X.Fresh(Lonely(b))
  }

  lemma CreatedHasKey(s: State)
    requires At(s, 0, Create) && s.cpus[0].p.key !in s.slotMap
    ensures Created(s, 0).slotMap.Keys == s.slotMap.Keys + {s.cpus[0].p.key}
    ensures var key := s.cpus[0].p.key; key in View(Created(s, 0)).slots && View(Created(s, 0)).slots[key] == X.Fresh(s.cpus[0].p)
  {
    CreatedView(s, 0, Created(s, 0));
  }

  lemma LonelyWins(cfg: X.Config, s: State, keys: set<Key>, b: Key) returns (t: State)
    requires |keys| < cfg.maxSlots && LonelyAt(s, Create, keys, b) && b !in keys
    ensures Leads(cfg, 0, s, t) && LonelyCreated(t, keys, b)
  {
    assert |s.slotMap| == |s.slotMap.Keys|;
    t := Created(s, 0);
    LeadsOne(cfg, 0, s, t);
    CreatedHasKey(s);
  }

  lemma LonelyCreates(cfg: X.Config, s: State, keys: set<Key>, b: Key) returns (t: State)
    requires cfg.quota != 1 && |keys| < cfg.maxSlots && Charged(s, keys) && b !in keys && b.job == 0
    ensures Leads(cfg, 0, Receive(s, 0, Lonely(b)), t) && LonelyCreated(t, keys, b)
  {
    var s0 := Receive(s, 0, Lonely(b));
    LonelyArrives(cfg, s, keys, b);
    var s1 := LonelyMisses(cfg, s0, keys, b);
    var s2 := LonelyAdmitted(cfg, s1, keys, b);
    LeadsOn(cfg, 0, s0, s1, s2);
    t := LonelyWins(cfg, s2, keys, b);
    LeadsOn(cfg, 0, s0, s2, t);
  }

  lemma LonelyContributes(cfg: X.Config, m: X.Maps, b: Key)
    requires X.Shaped(m) && b in m.slots && m.slots[b] == X.Fresh(Lonely(b)) && b.job == 0 && m.jobs == map[0 := 1]
    ensures X.Contribute(cfg, m, Lonely(b)).1 == X.Maps(m.slots - {b}, map[0 := 0])
  {
    NoneHasNone(0);
    assert m.jobs[0 := 0] == map[0 := 0];
  }

  /** CPU 1 holds the retransmission at the lock of the slot CPU 0 created. */
  ghost predicate RetransmissionAt(s: State, keys: set<Key>, b: Key) {
    && Safe(s) && |s.cpus| == 2 && At(s, 1, Lock) && s.cpus[1].p == Lonely(b) && Mapped(s, b, s.cpus[1].ref)
    && At(s, 0, Relookup) && s.cpus[0].p == Lonely(b) && s.slotMap.Keys == keys + {b}
    && s.jobs == map[0 := 1] && View(s).slots[b] == X.Fresh(Lonely(b))
  }

  lemma RetransmissionLooksUp(cfg: X.Config, s: State, b: Key) returns (t: State)
    requires |s.cpus| == 2 && PointersOk(s) && s.cpus[1].pc.Idle? && b in s.slotMap
    ensures Leads(cfg, 1, Receive(s, 1, Lonely(b)), t) && At(t, 1, Lock) && t.cpus[1].p == Lonely(b) && t.cpus[1].ref == s.slotMap[b]
    ensures t.slotMap == s.slotMap && t.heap == s.heap && t.jobs == s.jobs && |t.cpus| == 2 && t.cpus[0] == s.cpus[0]
  {
    t := DoLookup(Receive(s, 1, Lonely(b)), 1);
    LeadsOne(cfg, 1, Receive(s, 1, Lonely(b)), t);
  }

  lemma RetransmissionFinds(cfg: X.Config, s: State, keys: set<Key>, b: Key) returns (t: State)
    requires Safe(s) && LonelyCreated(s, keys, b)
    ensures Leads(cfg, 1, Receive(s, 1, Lonely(b)), t) && RetransmissionAt(t, keys, b)
  {
    assert b in s.slotMap;
    ReceiveKeeps(s, 1, Lonely(b));
    t := RetransmissionLooksUp(cfg, s, b);
    LeadsKeepsSafe(cfg, 1, Receive(s, 1, Lonely(b)), t);
    FoundIt(s, t, keys, b);
  }

  lemma FoundIt(s: State, t: State, keys: set<Key>, b: Key)
    requires LonelyCreated(s, keys, b) && Safe(t) && At(t, 1, Lock) && t.cpus[1].p == Lonely(b) && t.cpus[1].ref == s.slotMap[b]
    requires t.slotMap == s.slotMap && t.heap == s.heap && t.jobs == s.jobs && |t.cpus| == 2 && t.cpus[0] == s.cpus[0]
    ensures RetransmissionAt(t, keys, b)
  {
    SameView(s, t);
    assert CpuShape(t.cpus[0], |t.heap|);
  }

  lemma SameView(s: State, t: State)
    requires PointersOk(s) && PointersOk(t) && t.slotMap == s.slotMap && t.heap == s.heap
    ensures View(t).slots == View(s).slots
  {
  }

  lemma RemainingKeys(s: State, t: State, b: Key, keys: set<Key>)
    requires PointersOk(s) && PointersOk(t) && b !in keys && s.slotMap.Keys == keys + {b} && View(t).slots == View(s).slots - {b}
    ensures t.slotMap.Keys == keys
  {
    assert View(t).slots.Keys == t.slotMap.Keys && View(s).slots.Keys == s.slotMap.Keys;
  }

  /** It completes the slot, and its decrement takes the other slot's charge. */
  lemma RetransmissionCompletes(cfg: X.Config, s: State, keys: set<Key>, b: Key) returns (t: State)
    requires RetransmissionAt(s, keys, b) && b.job == 0 && b !in keys
    ensures Leads(cfg, 1, s, t) && PointersOk(t) && |t.cpus| == 2 && t.cpus[0] == s.cpus[0] && t.cpus[1].pc.Idle?
    ensures t.slotMap.Keys == keys && t.jobs == map[0 := 0]
  {
    AloneMeansUnlocked(s, 1, s.cpus[1].ref);
    LonelyContributes(cfg, View(s), b);
    t := SoloContribute(cfg, s, 1, s.cpus[1].ref);
    RemainingKeys(s, t, b, keys);
  }

  /** The creator misses its slot and drops: nothing is ever counted for it. */
  lemma CreatorMisses(cfg: X.Config, s: State, keys: set<Key>, b: Key) returns (t: State)
    requires |s.cpus| == 2 && At(s, 0, Relookup) && s.cpus[0].p == Lonely(b) && s.cpus[1].pc.Idle? && b !in keys
    requires s.slotMap.Keys == keys && s.jobs == map[0 := 0]
    ensures Leads(cfg, 0, s, t) && Uncharged(t, keys)
  {
    t := DoRelookup(s, 0);
    LeadsOne(cfg, 0, s, t);
    assert View(t).slots.Keys == t.slotMap.Keys;
  }

  /** The slot is created, completed by the retransmission, and never charged for. */
  lemma RoundUncharges(cfg: X.Config, s: State, keys: set<Key>, b: Key) returns (t: State)
    requires cfg.quota != 1 && |keys| < cfg.maxSlots && b !in keys && b.job == 0
    requires Reached(cfg, 2, s) && Charged(s, keys)
    ensures Reached(cfg, 2, t) && Uncharged(t, keys)
  {
    ReachedReceive(cfg, 2, s, 0, Lonely(b));
    var s1 := LonelyCreates(cfg, s, keys, b);
    ReachedOn(cfg, 2, 0, Receive(s, 0, Lonely(b)), s1);
    ReachedIsSafe(cfg, 2, s1);
    ReachedReceive(cfg, 2, s1, 1, Lonely(b));
    var s2 := RetransmissionFinds(cfg, s1, keys, b);
    ReachedOn(cfg, 2, 1, Receive(s1, 1, Lonely(b)), s2);
    t := RoundEnds(cfg, s2, keys, b);
  }

  lemma RoundEnds(cfg: X.Config, s: State, keys: set<Key>, b: Key) returns (t: State)
    requires b !in keys && b.job == 0 && Reached(cfg, 2, s) && RetransmissionAt(s, keys, b)
    ensures Reached(cfg, 2, t) && Uncharged(t, keys)
  {
    var s1 := RetransmissionCompletes(cfg, s, keys, b);
    ReachedOn(cfg, 2, 1, s, s1);
    assert CpuShape(s1.cpus[0], |s1.heap|);
    t := CreatorMisses(cfg, s1, keys, b);
    ReachedOn(cfg, 2, 0, s1, t);
  }

  /** The slots left open after `n` rounds. */
  ghost function Rounds(n: nat): (keys: set<Key>)
    requires n <= TWO32
    ensures |keys| == n && forall k :: k in keys ==> k.job == 0 && k.round < n && k.chunk == 0
  {
    if n == 0 then {} else Rounds(n - 1) + {Key(0, n - 1, 0)}
  }

  lemma {:induction false} ManyRounds(cfg: X.Config, n: nat) returns (s: State)
    requires cfg.maxJobs >= 1 && cfg.quota != 1 && n + 1 <= cfg.maxSlots < TWO32
    ensures Reached(cfg, 2, s) && Uncharged(s, Rounds(n))
  {
    if n == 0 {
      s := Boot(2);
      assert Run(cfg, 2, []) == s;
      assert View(s).slots.Keys == {};
    } else {
      var a, b := Key(0, n - 1, 0), Key(0, n - 1, 1);
      var before := ManyRounds(cfg, n - 1);
      var halfway := RoundOpens(cfg, before, Rounds(n - 1), a, b);
      s := RoundUncharges(cfg, halfway, Rounds(n), b);
    }
  }

  /**
   With retransmissions the quota bounds nothing: whatever quota from 2 on is set,
   two CPUs can be left idle with any number of the job's slots in the map and a
   counter of 0.
   */
  lemma QuotaBypassed(cfg: X.Config, n: nat) returns (actions: seq<Action>)
    requires cfg.maxJobs >= 1 && cfg.quota != 1 && n + 1 <= cfg.maxSlots < TWO32
    ensures var s := Run(cfg, 2, actions);
            Quiescent(s) && X.Charge(s.jobs, 0) == 0 && |LiveKeys(s.slotMap, 0)| == n
  {
    var s := ManyRounds(cfg, n);
    actions :| Run(cfg, 2, actions) == s;
    assert View(s).slots.Keys == s.slotMap.Keys;
    assert LiveKeys(s.slotMap, 0) == Rounds(n);
  }
}
