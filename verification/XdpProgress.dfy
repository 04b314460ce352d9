/**
 The concurrent kernel program never gets stuck: from every reachable state some
 schedule lets every CPU finish its packet.
 */
module XdpProgress {
  import opened GradProto
  import opened XdpMachine
  import opened XdpSafety
  import opened XdpGuarantees
  import X = XdpProgram

  function TotalLeft(cpus: seq<Cpu>): nat {
    if cpus == [] then 0 else TotalLeft(cpus[..|cpus| - 1]) + StepsLeft(cpus[|cpus| - 1])
  }

  lemma {:induction false} TotalUpdate(cpus: seq<Cpu>, c: nat, u: Cpu)
    requires c < |cpus|
    ensures TotalLeft(cpus[c := u]) == TotalLeft(cpus) - StepsLeft(cpus[c]) + StepsLeft(u)
  {
    var last := |cpus| - 1;
    if c == last {
      assert cpus[c := u][..last] == cpus[..last];
    } else {
      TotalUpdate(cpus[..last], c, u);
      assert cpus[c := u][..last] == cpus[..last][c := u];
    }
  }

  lemma StepReducesTotal(cfg: X.Config, s: State, c: nat)
    requires PointersOk(s) && Ready(s, c)
    ensures TotalLeft(Exec(cfg, s, c).cpus) < TotalLeft(s.cpus) && Exec(cfg, s, c).arrived == s.arrived
  {
    var s' := Exec(cfg, s, c);
    assert Follows(s, s', c) && Nearer(s, s', c);
    TotalUpdate(s.cpus, c, s'.cpus[c]);
  }

  /** No deadlock: a lock that somebody waits for is held by a CPU that is not itself waiting. */
  lemma SomeoneReady(s: State) returns (c: nat)
    requires Safe(s) && !Quiescent(s)
    ensures Ready(s, c)
  {
    c :| 0 <= c < |s.cpus| && !s.cpus[c].pc.Idle?;
    if s.cpus[c].pc.Lock? {
      var r := s.cpus[c].ref;
      assert CpuShape(s.cpus[c], |s.heap|) && InstanceOk(s, r);
      if s.heap[r].lock.Some? {
        c := s.heap[r].lock.value;
      }
    }
  }

  ghost predicate OnlySteps(actions: seq<Action>) {
    forall k :: 0 <= k < |actions| ==> actions[k].Go?
  }

  lemma RunSnoc(cfg: X.Config, cpus: nat, actions: seq<Action>, a: Action)
    ensures Run(cfg, cpus, actions + [a]) == Apply(cfg, Run(cfg, cpus, actions), a)
  {
    assert (actions + [a])[..|actions|] == actions;
  }

  lemma ThenRest(actions: seq<Action>, a: Action, rest: seq<Action>)
    ensures actions + ([a] + rest) == actions + [a] + rest
  {
  }

  function Fold<S, A>(g: (S, A) -> S, s: S, steps: seq<A>): S {
    if steps == [] then s else Fold(g, g(s, steps[0]), steps[1..])
  }

  ghost function Applying(cfg: X.Config): (State, Action) -> State {
    (s: State, a: Action) => if PointersOk(s) then Apply(cfg, s, a) else s
  }

  /** More of the scheduler's choices, from a state on. */
  ghost function Continue(cfg: X.Config, s: State, actions: seq<Action>): State {
    Fold(Applying(cfg), s, actions)
  }

  lemma {:induction false} RunContinues(cfg: X.Config, cpus: nat, actions: seq<Action>, more: seq<Action>)
    ensures Run(cfg, cpus, actions + more) == Continue(cfg, Run(cfg, cpus, actions), more)
    decreases |more|
  {
    if more == [] {
      assert actions + more == actions;
    } else {
      RunSnoc(cfg, cpus, actions, more[0]);
      RunContinues(cfg, cpus, actions + [more[0]], more[1..]);
      ThenRest(actions, more[0], more[1..]);
      assert [more[0]] + more[1..] == more;
    }
  }

  lemma ContinueOne(cfg: X.Config, s: State, c: nat, rest: seq<Action>)
    requires PointersOk(s) && c < |s.cpus|
    ensures Continue(cfg, s, [Go(c)] + rest) == Continue(cfg, Exec(cfg, s, c), rest)
  {
    assert ([Go(c)] + rest)[1..] == rest;
  }

  lemma OneStepOn(cfg: X.Config, s: State) returns (c: nat)
    requires Safe(s) && !Quiescent(s)
    ensures c < |s.cpus|
    ensures var s' := Exec(cfg, s, c);
            Safe(s') && TotalLeft(s'.cpus) < TotalLeft(s.cpus) && s'.arrived == s.arrived
  {
    c := SomeoneReady(s);
    StepReducesTotal(cfg, s, c);
    ExecKeepsSafe(cfg, s, c);
  }

  lemma {:induction false} CanFinishFrom(cfg: X.Config, s: State) returns (more: seq<Action>)
    requires Safe(s)
    ensures OnlySteps(more) && Quiescent(Continue(cfg, s, more)) && Continue(cfg, s, more).arrived == s.arrived
    decreases TotalLeft(s.cpus)
  {
    if Quiescent(s) {
      more := [];
    } else {
      var c := OneStepOn(cfg, s);
      var rest := CanFinishFrom(cfg, Exec(cfg, s, c));
      ContinueOne(cfg, s, c, rest);
      more := [Go(c)] + rest;
    }
  }

  /** Whatever has happened so far, the packets in flight can all be finished without new arrivals. */
  lemma EveryRunCanFinish(cfg: X.Config, cpus: nat, actions: seq<Action>) returns (more: seq<Action>)
    ensures OnlySteps(more) && Quiescent(Run(cfg, cpus, actions + more))
    ensures Run(cfg, cpus, actions + more).arrived == Run(cfg, cpus, actions).arrived
  {
    RunSafe(cfg, cpus, actions);
    more := CanFinishFrom(cfg, Run(cfg, cpus, actions));
    RunContinues(cfg, cpus, actions, more);
  }
}
