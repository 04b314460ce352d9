/**
 The kernel program without a config: it behaves as if there were no quota, and
 every packet it would have sent is dropped instead, after the same teardown.
 */
module XdpUnconfigured {
  import opened GradProto
  import opened XdpMachine
  import opened XdpOnce
  import opened XdpDelivery
  import X = XdpProgram

  function Mute(v: Verdict): Verdict {
    if v.Tx? then Drop(v.p) else v
  }

  function MuteLog(log: seq<Verdict>): (r: seq<Verdict>)
    ensures |r| == |log|
  {
    seq(|log|, i requires 0 <= i < |log| => Mute(log[i]))
  }

  function Muted(s: State): State {
    s.(log := MuteLog(s.log))
  }

  /** The same maps with a config that sets no quota. */
  function Configured(cfg: X.Config): X.Config {
    cfg.(populated := true, quota := 0)
  }

  lemma MuteSnoc(log: seq<Verdict>, v: Verdict)
    ensures MuteLog(log + [v]) == MuteLog(log) + [Mute(v)]
  {
  }

  predicate AtStep(s: State, c: nat) {
    c < |s.cpus| && At(s, c, s.cpus[c].pc)
  }

  lemma LookupMuted(cfg: X.Config, s: State, c: nat)
    requires !cfg.populated && AtStep(s, c) && (s.cpus[c].pc.Lookup? || s.cpus[c].pc.Admit?)
    ensures ExecBeforeLock(cfg, Muted(s), c) == Muted(ExecBeforeLock(Configured(cfg), s, c))
  {
    MuteSnoc(s.log, Drop(s.cpus[c].p));
  }

  lemma CreateMuted(cfg: X.Config, s: State, c: nat)
    requires !cfg.populated && AtStep(s, c) && s.cpus[c].pc.Create?
    ensures ExecBeforeLock(cfg, Muted(s), c) == Muted(ExecBeforeLock(Configured(cfg), s, c))
  {
  }

  lemma RelookupMuted(cfg: X.Config, s: State, c: nat)
    requires !cfg.populated && AtStep(s, c) && s.cpus[c].pc.Relookup?
    ensures ExecBeforeLock(cfg, Muted(s), c) == Muted(ExecBeforeLock(Configured(cfg), s, c))
  {
    MuteSnoc(s.log, Drop(s.cpus[c].p));
  }

  lemma IncrementMuted(cfg: X.Config, s: State, c: nat)
    requires !cfg.populated && AtStep(s, c) && (s.cpus[c].pc.IncLookup? || s.cpus[c].pc.IncAdd?)
    ensures ExecBeforeLock(cfg, Muted(s), c) == Muted(ExecBeforeLock(Configured(cfg), s, c))
  {
  }

  lemma NewEntryMuted(cfg: X.Config, s: State, c: nat)
    requires !cfg.populated && AtStep(s, c) && (s.cpus[c].pc.IncCreate? || s.cpus[c].pc.IncRetry?)
    ensures ExecBeforeLock(cfg, Muted(s), c) == Muted(ExecBeforeLock(Configured(cfg), s, c))
  {
  }

  lemma LockedMuted(cfg: X.Config, s: State, c: nat)
    requires !cfg.populated && AtStep(s, c) && (s.cpus[c].pc.Lock? || s.cpus[c].pc.Check? || s.cpus[c].pc.Add?)
    ensures ExecFromLock(cfg, Muted(s), c) == Muted(ExecFromLock(Configured(cfg), s, c))
  {
  }

  lemma CountMuted(cfg: X.Config, s: State, c: nat)
    requires !cfg.populated && AtStep(s, c) && (s.cpus[c].pc.Idle? || s.cpus[c].pc.Count? || s.cpus[c].pc.WriteBack?)
    ensures ExecFromLock(cfg, Muted(s), c) == Muted(ExecFromLock(Configured(cfg), s, c))
  {
  }

  lemma UnlockMuted(cfg: X.Config, s: State, c: nat)
    requires !cfg.populated && AtStep(s, c) && (s.cpus[c].pc.Unlock? || s.cpus[c].pc.ReadConfig? || s.cpus[c].pc.Delete?)
    ensures ExecFromLock(cfg, Muted(s), c) == Muted(ExecFromLock(Configured(cfg), s, c))
  {
    MuteSnoc(s.log, Drop(s.cpus[c].p));
  }

  lemma DecrementMuted(cfg: X.Config, s: State, c: nat)
    requires !cfg.populated && AtStep(s, c) && Closed(s.cpus[c])
    ensures ExecFromLock(cfg, Muted(s), c) == Muted(ExecFromLock(Configured(cfg), s, c))
  {
    MuteSnoc(s.log, Outcome(Configured(cfg), s.cpus[c]));
  }

  lemma BeforeLockMuted(cfg: X.Config, s: State, c: nat)
    requires !cfg.populated && AtStep(s, c) && BeforeLock(s.cpus[c].pc)
    ensures ExecBeforeLock(cfg, Muted(s), c) == Muted(ExecBeforeLock(Configured(cfg), s, c))
  {
    match s.cpus[c].pc
    case Lookup | Admit => LookupMuted(cfg, s, c);
    case Create => CreateMuted(cfg, s, c);
    case Relookup => RelookupMuted(cfg, s, c);
    case IncLookup | IncAdd => IncrementMuted(cfg, s, c);
    case IncCreate | IncRetry => NewEntryMuted(cfg, s, c);
  }

  lemma FromLockMuted(cfg: X.Config, s: State, c: nat)
    requires !cfg.populated && AtStep(s, c) && !BeforeLock(s.cpus[c].pc)
    ensures ExecFromLock(cfg, Muted(s), c) == Muted(ExecFromLock(Configured(cfg), s, c))
  {
    match s.cpus[c].pc
    case Lock | Check | Add => LockedMuted(cfg, s, c);
    case Idle | Count | WriteBack => CountMuted(cfg, s, c);
    case Unlock | ReadConfig | Delete => UnlockMuted(cfg, s, c);
    case DecLookup | DecAdd => DecrementMuted(cfg, s, c);
  }

  lemma ExecMuted(cfg: X.Config, s: State, c: nat)
    requires !cfg.populated && PointersOk(s) && c < |s.cpus|
    ensures Exec(cfg, Muted(s), c) == Muted(Exec(Configured(cfg), s, c))
  {
    assert CpuShape(s.cpus[c], |s.heap|);
    if BeforeLock(s.cpus[c].pc) {
      BeforeLockMuted(cfg, s, c);
    } else {
      FromLockMuted(cfg, s, c);
    }
  }

  lemma ApplyMuted(cfg: X.Config, s: State, a: Action)
    requires !cfg.populated && PointersOk(s)
    ensures Apply(cfg, Muted(s), a) == Muted(Apply(Configured(cfg), s, a))
  {
    if a.c < |s.cpus| {
      if a.Arrive? {
        MuteSnoc(s.log, Malformed(a.p));
      } else {
        ExecMuted(cfg, s, a.c);
      }
    }
  }

  /** Every interleaving without a config is the one without a quota, silenced. */
  lemma {:induction false} RunMuted(cfg: X.Config, cpus: nat, actions: seq<Action>)
    requires !cfg.populated
    ensures Run(cfg, cpus, actions) == Muted(Run(Configured(cfg), cpus, actions))
  {
    if actions == [] {
      assert Boot(cpus).log == MuteLog(Boot(cpus).log);
    } else {
      RunMuted(cfg, cpus, actions[..|actions| - 1]);
      ApplyMuted(cfg, Run(Configured(cfg), cpus, actions[..|actions| - 1]), actions[|actions| - 1]);
    }
  }

  lemma {:induction false} VerdictsMuted(log: seq<Verdict>, key: Key)
    ensures VerdictsFor(MuteLog(log), key) == MuteLog(VerdictsFor(log, key))
  {
    if log != [] {
      var front, last := log[..|log| - 1], log[|log| - 1];
      VerdictsMuted(front, key);
      assert log == front + [last];
      MuteSnoc(front, last);
      MuteSnoc(VerdictsFor(front, key), last);
    }
  }

  /** Without a config nothing is sent, whatever arrives. */
  lemma NothingSentWithoutConfig(cfg: X.Config, cpus: nat, actions: seq<Action>)
    requires !cfg.populated
    ensures forall k :: 0 <= k < |Run(cfg, cpus, actions).log| ==> !Run(cfg, cpus, actions).log[k].Tx?
  {
    RunMuted(cfg, cpus, actions);
  }

  /**
   A round whose n workers send once is still torn down, whatever the quota says: once
   every CPU is done its n packets were dropped and its slot is gone, if slot_map was
   never full.
   */
  lemma TornDownWithoutConfig(cfg: X.Config, cpus: nat, actions: seq<Action>, key: Key, n: nat)
    requires !cfg.populated && forall k :: 0 <= k <= |actions| ==> RoomAfter(cfg, cpus, actions[..k])
    requires var s := Run(cfg, cpus, actions);
             OncePerWorker(s.arrived, key) && Quiescent(s) && 1 <= n && EachSent(s.arrived, key, n)
    ensures var s := Run(cfg, cpus, actions);
            && key !in s.slotMap && |VerdictsFor(s.log, key)| == n
            && forall k :: 0 <= k < n ==> VerdictsFor(s.log, key)[k].Drop?
  {
    RunMuted(cfg, cpus, actions);
    forall k | 0 <= k <= |actions| ensures RoomAfter(Configured(cfg), cpus, actions[..k]) {
      RunMuted(cfg, cpus, actions[..k]);
      assert RoomAfter(cfg, cpus, actions[..k]);
    }
    OneForwardRestDropped(Configured(cfg), cpus, actions, key, n);
    VerdictsMuted(Run(Configured(cfg), cpus, actions).log, key);
  }
}
