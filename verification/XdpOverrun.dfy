/**
 When the kernel program's quota counters can be trusted: a slot must not complete
 between its creation and the increment that counts it. It cannot as long as no
 packet can be overrun, that is, outnumbered by enough other packets of its key.
 */
module XdpOverrun {
  import opened GradProto
  import opened XdpMachine
  import opened XdpSafety
  import opened XdpGuarantees
  import X = XdpProgram

  /**
   Arrival `k` could open a slot that these other arrivals complete on their own:
   as many as it expects, of its key and length, from different workers.
   */
  ghost predicate Overrun(ps: seq<Packet>, k: nat, ks: seq<nat>) {
    && k < |ps| && ValidFanIn(ps[k].numWorkers) && |ks| == ps[k].numWorkers
    && (forall i :: 0 <= i < |ks| ==> ks[i] < |ps| && ks[i] != k && SameChunk(ps[k], ps[ks[i]]))
    && (forall i, j :: 0 <= i < j < |ks| ==> ps[ks[i]].worker != ps[ks[j]].worker)
  }

  predicate SameChunk(p: Packet, q: Packet) {
    q.key == p.key && |q.values| == |p.values|
  }

  ghost predicate NoOverrun(ps: seq<Packet>) {
    forall k: nat, ks: seq<nat> :: !Overrun(ps, k, ks)
  }

  lemma NoOverrunPrefix(ps: seq<Packet>, more: seq<Packet>)
    requires ps <= more && NoOverrun(more)
    ensures NoOverrun(ps)
  {
    forall k: nat, ks: seq<nat> ensures !Overrun(ps, k, ks) {
      assert !Overrun(more, k, ks);
      assert forall i :: 0 <= i < |ps| ==> ps[i] == more[i];
    }
  }

  // --------------------------------------------------------- drawing packets from a stream

  ghost predicate Drawn(ps: seq<Packet>, xs: seq<Packet>, ks: seq<nat>) {
    && |ks| == |xs|
    && (forall i :: 0 <= i < |ks| ==> ks[i] < |ps| && ps[ks[i]] == xs[i])
    && (forall i, j :: 0 <= i < j < |ks| ==> ks[i] != ks[j])
  }

  function Skip(j: nat, k: nat): nat {
    if k < j then k else k + 1
  }

  /** Places in the stream without its `j`-th packet, as places in the stream. */
  lemma DrawOneMore(ps: seq<Packet>, j: nat, xs: seq<Packet>, ls: seq<nat>)
    requires j < |ps| && Drawn(ps[..j] + ps[j + 1..], xs, ls)
    ensures Drawn(ps, xs + [ps[j]], seq(|ls|, i requires 0 <= i < |ls| => Skip(j, ls[i])) + [j])
  {
    var rest := ps[..j] + ps[j + 1..];
    assert forall k :: 0 <= k < |rest| ==> rest[k] == ps[Skip(j, k)];
  }

  lemma RestSuffices(ps: seq<Packet>, j: nat, xs: seq<Packet>)
    requires j < |ps| && multiset(xs + [ps[j]]) <= multiset(ps)
    ensures multiset(xs) <= multiset(ps[..j] + ps[j + 1..])
  {
    MultisetRemove(ps, j);
  }

  /** As many packets as the stream has can be found at different places of it. */
  lemma {:induction false} Draw(ps: seq<Packet>, xs: seq<Packet>) returns (ks: seq<nat>)
    requires multiset(xs) <= multiset(ps)
    ensures Drawn(ps, xs, ks)
    decreases |xs|
  {
    if xs == [] {
      ks := [];
    } else {
      var front, x := xs[..|xs| - 1], xs[|xs| - 1];
      assert xs == front + [x];
      assert x in multiset(ps);
      var j :| 0 <= j < |ps| && ps[j] == x;
      RestSuffices(ps, j, front);
      var ls := Draw(ps[..j] + ps[j + 1..], front);
      DrawOneMore(ps, j, front, ls);
      ks := seq(|ls|, i requires 0 <= i < |ls| => Skip(j, ls[i])) + [j];
    }
  }

  /** A packet and enough others of its chunk, taken from a stream that has them all, overrun it. */
  lemma OverrunFrom(ps: seq<Packet>, others: seq<Packet>, p: Packet)
    requires ValidFanIn(p.numWorkers) && |others| == p.numWorkers && DistinctWorkers(others)
    requires forall i :: 0 <= i < |others| ==> SameChunk(p, others[i])
    requires multiset(others + [p]) <= multiset(ps)
    ensures !NoOverrun(ps)
  {
    var ks := Draw(ps, others + [p]);
    var n := |others|;
    assert forall i :: 0 <= i < n ==> (others + [p])[i] == others[i];
    assert (others + [p])[n] == p;
    assert Overrun(ps, ks[n], ks[..n]);
  }

  // ------------------------------------------------------------------- invariant

  function OneIf(b: bool): nat {
    if b then 1 else 0
  }

  /** How many CPUs still carry packet `x` to its slot. */
  ghost function Carriers(cpus: seq<Cpu>, x: Packet): nat {
    if cpus == [] then 0
    else Carriers(cpus[..|cpus| - 1], x) + OneIf(Pending(cpus[|cpus| - 1].pc) && cpus[|cpus| - 1].p == x)
  }

  lemma {:induction false} CarriersUpdate(cpus: seq<Cpu>, c: nat, u: Cpu, x: Packet)
    requires c < |cpus|
    ensures Carriers(cpus[c := u], x) ==
            Carriers(cpus, x) - OneIf(Pending(cpus[c].pc) && cpus[c].p == x) + OneIf(Pending(u.pc) && u.p == x)
  {
    var last := |cpus| - 1;
    if c == last {
      assert cpus[c := u][..last] == cpus[..last];
    } else {
      CarriersUpdate(cpus[..last], c, u, x);
      assert cpus[c := u][..last] == cpus[..last][c := u];
    }
  }

  lemma {:induction false} CarriesOne(cpus: seq<Cpu>, c: nat)
    requires c < |cpus| && Pending(cpus[c].pc)
    ensures Carriers(cpus, cpus[c].p) >= 1
  {
    if c < |cpus| - 1 {
      CarriesOne(cpus[..|cpus| - 1], c);
    }
  }

  lemma {:induction false} NobodyCarries(cpus: seq<Cpu>, x: Packet)
    requires forall c :: 0 <= c < |cpus| ==> cpus[c].pc.Idle?
    ensures Carriers(cpus, x) == 0
  {
    if cpus != [] {
      NobodyCarries(cpus[..|cpus| - 1], x);
    }
  }

  /** Packet `x` arrived at least as often as it is on its way plus absorbed by one instance. */
  ghost predicate Paid(s: State, x: Packet) {
    && Carriers(s.cpus, x) <= Times(s.arrived, x)
    && forall r :: 0 <= r < |s.heap| ==> Carriers(s.cpus, x) + Times(s.heap[r].contribs, x) <= Times(s.arrived, x)
  }

  ghost predicate AllPaid(s: State) {
    forall x: Packet :: Paid(s, x)
  }

  /** Who created a slot and has yet to count it still has it in the map. */
  ghost predicate WinnerOk(s: State, c: nat)
    requires c < |s.cpus|
  {
    var p := s.cpus[c].p;
    Won(s.cpus[c]) ==>
      && p.key in s.slotMap && s.slotMap[p.key] < |s.heap|
      && var i := s.heap[s.slotMap[p.key]];
         i.creator == c && i.slot.expected == p.numWorkers && i.slot.chunkLen == |p.values|
  }

  ghost predicate WinnersOk(s: State) {
    forall c :: 0 <= c < |s.cpus| ==> WinnerOk(s, c)
  }

  ghost predicate Orderly(s: State) {
    Safe(s) && FromArrivals(s) && NoOverrun(s.arrived) && AllPaid(s) && WinnersOk(s)
  }

  /** What a slot absorbed and a packet still on its way are different arrivals. */
  lemma PendingIsAnother(s: State, c: nat, r: nat, n: nat)
    requires AllPaid(s) && c < |s.cpus| && Pending(s.cpus[c].pc) && r < |s.heap| && n <= |s.heap[r].contribs|
    ensures multiset(s.heap[r].contribs[..n] + [s.cpus[c].p]) <= multiset(s.arrived)
  {
    var contribs, p := s.heap[r].contribs, s.cpus[c].p;
    CarriesOne(s.cpus, c);
    assert contribs == contribs[..n] + contribs[n..];
    forall x: Packet ensures multiset(contribs[..n] + [p])[x] <= multiset(s.arrived)[x] {
      assert Paid(s, x);
    }
  }

  /** A slot whose creator has not counted it yet is not complete: that would overrun the creator. */
  lemma UncountedIsOpen(s: State, c: nat)
    requires Orderly(s) && c < |s.cpus| && Won(s.cpus[c])
    ensures var key := s.cpus[c].p.key; key in s.slotMap && s.slotMap[key] < |s.heap| && s.heap[s.slotMap[key]].closer.None?
  {
    assert WinnerOk(s, c);
    var r := s.slotMap[s.cpus[c].p.key];
    assert InstanceOk(s, r);
    if s.heap[r].closer.Some? {
      PendingIsAnother(s, c, r, s.heap[r].slot.expected);
      OverrunFrom(s.arrived, s.heap[r].contribs[..s.heap[r].slot.expected], s.cpus[c].p);
    }
  }

  // ------------------------------------------------------------------ preservation

  lemma StepKeepsPaid(s: State, s': State, c: nat, x: Packet)
    requires c < |s.cpus| && Follows(s, s', c) && Paid(s, x)
    ensures Paid(s', x)
  {
    CarriersUpdate(s.cpus, c, s'.cpus[c], x);
    forall r | 0 <= r < |s'.heap| ensures Carriers(s'.cpus, x) + Times(s'.heap[r].contribs, x) <= Times(s'.arrived, x) {
      if r < |s.heap| {
        assert InstanceFollows(s.heap[r], s'.heap[r], r, s.cpus[c], s'.cpus[c]);
        TimesSnoc(s.heap[r].contribs, s.cpus[c].p, x);
      }
    }
  }

  /** The key of an uncounted slot cannot be deleted before its creator counts it. */
  lemma WinnerStays(s: State, s': State, c: nat, d: nat)
    requires Orderly(s) && c < |s.cpus| && Follows(s, s', c) && d < |s.cpus|
    ensures WinnerOk(s', d)
  {
    assert WinnerOk(s, d);
    if Won(s'.cpus[d]) && Won(s.cpus[d]) {
      UncountedIsOpen(s, d);
      var r := s.slotMap[s.cpus[d].p.key];
      assert InstanceFollows(s.heap[r], s'.heap[r], r, s.cpus[c], s'.cpus[c]);
      if s.cpus[c].pc.Delete? {
        DeletesItsOwn(s, c);
      }
    }
  }

  lemma ArrivalKeepsPaid(s: State, c: nat, p: Packet, x: Packet)
    requires PointersOk(s) && c < |s.cpus| && Paid(s, x)
    ensures Paid(Receive(s, c, p), x)
  {
    var s' := Receive(s, c, p);
    CarriersUpdate(s.cpus, c, s'.cpus[c], x);
    assert s.cpus == s.cpus[c := s.cpus[c]];
    TimesSnoc(s.arrived, p, x);
  }

  lemma ApplyKeepsOrderly(cfg: X.Config, s: State, a: Action)
    requires Orderly(s)
    ensures AllPaid(Apply(cfg, s, a)) && WinnersOk(Apply(cfg, s, a))
  {
    var s' := Apply(cfg, s, a);
    if a.c < |s.cpus| {
      if a.Go? {
        forall x: Packet ensures Paid(s', x) {
          StepKeepsPaid(s, s', a.c, x);
        }
        forall d | 0 <= d < |s'.cpus| ensures WinnerOk(s', d) {
          WinnerStays(s, s', a.c, d);
        }
      } else {
        ReceiveKeepsOrderly(s, a.c, a.p);
      }
    }
  }

  lemma ReceiveKeepsOrderly(s: State, c: nat, p: Packet)
    requires Orderly(s) && c < |s.cpus|
    ensures AllPaid(Receive(s, c, p)) && WinnersOk(Receive(s, c, p))
  {
    var s' := Receive(s, c, p);
    forall x: Packet ensures Paid(s', x) {
      ArrivalKeepsPaid(s, c, p, x);
    }
    forall d | 0 <= d < |s'.cpus| ensures WinnerOk(s', d) {
      assert WinnerOk(s, d);
    }
  }

  /** Every state of every interleaving on a stream without overruns. */
  lemma {:induction false} RunOrderly(cfg: X.Config, cpus: nat, actions: seq<Action>)
    requires NoOverrun(Run(cfg, cpus, actions).arrived)
    ensures Orderly(Run(cfg, cpus, actions))
  {
    RunSafe(cfg, cpus, actions);
    RunFromArrivals(cfg, cpus, actions);
    if actions == [] {
      forall x: Packet ensures Paid(Boot(cpus), x) {
        NobodyCarries(Boot(cpus).cpus, x);
      }
    } else {
      var before, a := actions[..|actions| - 1], actions[|actions| - 1];
      var s := Run(cfg, cpus, before);
      ApplyGrowsStream(cfg, s, a);
      NoOverrunPrefix(s.arrived, Apply(cfg, s, a).arrived);
      RunOrderly(cfg, cpus, before);
      ApplyKeepsOrderly(cfg, s, a);
    }
  }
}
