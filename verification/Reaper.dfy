/**
 The main loop's clockwork: when the TTL sweep runs, what it evicts, and how old
 an incomplete slot can get.
 */
module Reaper {
  import opened GradProto
  import opened Probing
  import opened Aggregator
  import opened QuotaAccounting
  import opened Conservation

  // ------------------------------------------------------------------ one sweep

  /** How many cells of a job a sweep finds expired. */
  ghost function CountExpired(cells: seq<Cell>, job: u32, now: int, ttl: int): nat {
    if cells == [] then 0
    else
      var c := cells[|cells| - 1];
      CountExpired(cells[..|cells| - 1], job, now, ttl) + if Holds(c, job) && Expired(c, now, ttl) then 1 else 0
  }

  /** The expired cells of a table suffix, in sweep order. */
  function ExpiredFrom(cells: seq<Cell>, now: int, ttl: int, i: nat): seq<Cell>
    requires i <= |cells|
    decreases |cells| - i
  {
    if i == |cells| then []
    else (if Expired(cells[i], now, ttl) then [cells[i]] else []) + ExpiredFrom(cells, now, ttl, i + 1)
  }

  function AfterSweep(c: Cell, now: int, ttl: int): Cell {
    if Expired(c, now, ttl) then c.(inUse := false) else c
  }

  lemma {:induction false} ExpiredFromSame(a: seq<Cell>, b: seq<Cell>, now: int, ttl: int, i: nat)
    requires |a| == |b| && i <= |a| && forall k :: i <= k < |a| ==> a[k] == b[k]
    ensures ExpiredFrom(a, now, ttl, i) == ExpiredFrom(b, now, ttl, i)
    decreases |a| - i
  {
    if i < |a| {
      ExpiredFromSame(a, b, now, ttl, i + 1);
    }
  }

  /** A sweep evicts exactly the expired cells and touches no other. */
  lemma {:induction false} SweepExact(cfg: Config, st: State, now: int, ttl: int, i: nat)
    requires Shaped(st.cells, st.jobs) && i <= |st.cells|
    ensures var st' := Reap(cfg, st, now, ttl, i);
            && (forall k :: 0 <= k < |st.cells| ==>
                  st'.cells[k] == if i <= k then AfterSweep(st.cells[k], now, ttl) else st.cells[k])
            && st'.reaped == st.reaped + ExpiredFrom(st.cells, now, ttl, i)
            && st'.accepted == st.accepted && st'.emitted == st.emitted
    decreases |st.cells| - i
  {
    if i < |st.cells| {
      if Expired(st.cells[i], now, ttl) {
        var st1 := FreeSlot(cfg, st.(reaped := st.reaped + [st.cells[i]]), i);
        SweepExact(cfg, st1, now, ttl, i + 1);
        ExpiredFromSame(st.cells, st1.cells, now, ttl, i + 1);
      } else {
        SweepExact(cfg, st, now, ttl, i + 1);
      }
    }
  }

  lemma {:induction false} SweepCounts(cells: seq<Cell>, cells': seq<Cell>, job: u32, now: int, ttl: int)
    requires |cells| == |cells'| && forall k :: 0 <= k < |cells| ==> cells'[k] == AfterSweep(cells[k], now, ttl)
    ensures CountJob(cells', job) == CountJob(cells, job) - CountExpired(cells, job, now, ttl)
  {
    if cells != [] {
      SweepCounts(cells[..|cells| - 1], cells'[..|cells| - 1], job, now, ttl);
    }
  }

  lemma {:induction false} SweepKeepsJobIds(cfg: Config, st: State, now: int, ttl: int, i: nat, a: nat)
    requires Inv(cfg, st) && i <= |st.cells| && a < |st.jobs| && st.jobs[a].inUse
    ensures var e := Reap(cfg, st, now, ttl, i).jobs[a]; e.inUse && e.job == st.jobs[a].job
    decreases |st.cells| - i
  {
    if i < |st.cells| {
      if Expired(st.cells[i], now, ttl) {
        var st1 := FreeSlot(cfg, st.(reaped := st.reaped + [st.cells[i]]), i);
        ReapOneKeepsInv(cfg, st, i);
        SweepKeepsJobIds(cfg, st1, now, ttl, i + 1, a);
      } else {
        SweepKeepsJobIds(cfg, st, now, ttl, i + 1, a);
      }
    }
  }

  /** A sweep lowers each tracked job's counter by exactly that job's evictions. */
  lemma SweepLowersCounters(cfg: Config, st: State, now: int, ttl: int, a: nat)
    requires Inv(cfg, st) && a < |st.jobs| && st.jobs[a].inUse
    ensures Reap(cfg, st, now, ttl).jobs[a].concurrent
         == st.jobs[a].concurrent - CountExpired(st.cells, st.jobs[a].job, now, ttl)
  {
    var st' := Reap(cfg, st, now, ttl);
    SweepExact(cfg, st, now, ttl, 0);
    SweepCounts(st.cells, st'.cells, st.jobs[a].job, now, ttl);
    SweepKeepsJobIds(cfg, st, now, ttl, 0, a);
    ReapKeepsInv(cfg, st, now, ttl, 0);
    assert EntryOk(cfg, st.cells, st.freed, st.jobs[a]);
    assert EntryOk(cfg, st'.cells, st'.freed, st'.jobs[a]);
  }

  // --------------------------------------------------------------- the main loop

  /** The loop's own variable beside the tables. */
  datatype Loop = Loop(st: State, lastReap: int)

  /** One iteration's clock readings, and the packet it received, if any. */
  datatype Turn = Turn(now: int, sweepNow: int, arrival: Option<Packet>, recvNow: int)

  /** A quarter of the TTL, at least 1 ms, in microseconds; C's integer division. */
  function Interval(ttlMs: nat): int {
    (if ttlMs / 4 < 1 then 1 else ttlMs / 4) * 1000
  }

  function ReapCheck(cfg: Config, ttlMs: nat, l: Loop, t: Turn): (r: Loop)
    requires Shaped(l.st.cells, l.st.jobs)
    ensures Shaped(r.st.cells, r.st.jobs) && |r.st.cells| == |l.st.cells|
  {
    if ttlMs > 0 && t.now - l.lastReap >= Interval(ttlMs)
    then Loop(Reap(cfg, l.st, t.sweepNow, ttlMs * 1000), t.now)
    else l
  }

  function Iterate(cfg: Config, ttlMs: nat, l: Loop, t: Turn): (r: Loop)
    requires Shaped(l.st.cells, l.st.jobs)
    ensures Shaped(r.st.cells, r.st.jobs) && |r.st.cells| == |l.st.cells|
  {
    var l1 := ReapCheck(cfg, ttlMs, l, t);
    if t.arrival.None? then l1 else l1.(st := Process(cfg, l1.st, t.arrival.value, t.recvNow).1)
  }

  /** One iteration of the receive loop, on the real tables. */
  method RunTurn(d: Daemon, ttlMs: nat, lastReap: int, t: Turn) returns (lastReap': int)
    requires d.Valid()
    modifies d, d.slots, d.jobs
    ensures d.Valid()
    ensures Loop(d.Current(), lastReap') == Iterate(d.cfg, ttlMs, Loop(old(d.Current()), lastReap), t)
  {
    lastReap' := lastReap;
    if ttlMs > 0 {
      var intervalMs := ttlMs / 4;
      if intervalMs < 1 {
        intervalMs := 1;
      }
      if t.now - lastReap >= intervalMs * 1000 {
        d.ReapExpired(t.sweepNow, ttlMs * 1000);
        lastReap' := t.now;
      }
    }
    if t.arrival.Some? {
      var _ := d.Receive(t.arrival.value, t.recvNow);
    }
  }

  function LoopRun(cfg: Config, ttlMs: nat, l: Loop, turns: seq<Turn>): (r: Loop)
    requires Shaped(l.st.cells, l.st.jobs)
    ensures Shaped(r.st.cells, r.st.jobs) && |r.st.cells| == |l.st.cells|
  {
    if turns == [] then l
    else Iterate(cfg, ttlMs, LoopRun(cfg, ttlMs, l, turns[..|turns| - 1]), turns[|turns| - 1])
  }

  /** The clock never runs backwards, within a turn and from turn to turn. */
  ghost predicate ClockFrom(start: int, turns: seq<Turn>) {
    && (forall k :: 0 <= k < |turns| ==> turns[k].now <= turns[k].sweepNow <= turns[k].recvNow && start <= turns[k].now)
    && (forall k :: 0 < k < |turns| ==> turns[k - 1].recvNow <= turns[k].now)
  }

  /** Every slot in use was touched less than a TTL before the last sweep check. */
  ghost predicate Recent(l: Loop, ttl: int) {
    forall i :: 0 <= i < |l.st.cells| && l.st.cells[i].inUse ==> l.st.cells[i].lastTouched > l.lastReap - ttl
  }

  /** Cell `i` took the packet that was accepted. */
  ghost predicate TookInto(st: State, st': State, i: nat)
    requires i < |st.cells| == |st'.cells|
  {
    |st.accepted| < |st'.accepted| && (st'.cells[i].inUse, st'.cells[i].contribs) != (st.cells[i].inUse, st.cells[i].contribs)
  }

  /** A packet stamps the slot that takes it with the present, and no other. */
  lemma ProcessStamps(cfg: Config, st: State, p: Packet, now: int, i: nat)
    requires Inv(cfg, st) && i < |st.cells|
    ensures var st' := Process(cfg, st, p, now).1;
            st'.cells[i].inUse ==>
              if TookInto(st, st', i) then st'.cells[i].lastTouched == now && st'.accepted == st.accepted + [p] && st'.cells[i].key == p.key
              else st'.cells[i] == st.cells[i]
  {
    if Admissible(p) {
      var r := FindOrCreateSlot(cfg, st, p.key);
      SlotHandedOut(cfg, st, p.key);
      FindOrCreateSlotKeepsInv(cfg, st, p.key);
      if r.0.Some? {
        ContributeAnswers(cfg, r.1, r.0.value, p, now);
        if i == r.0.value && !st.cells[i].inUse {
          assert !Contributed(r.1.cells[i].contribs, p.worker);
        }
      }
    }
  }

  lemma ReapCheckRecent(cfg: Config, ttlMs: nat, l: Loop, t: Turn)
    requires Inv(cfg, l.st) && Recent(l, ttlMs * 1000) && 0 < ttlMs
    requires t.now <= t.sweepNow
    ensures var l1 := ReapCheck(cfg, ttlMs, l, t);
            && Inv(cfg, l1.st) && Recent(l1, ttlMs * 1000)
            && forall i :: 0 <= i < |l1.st.cells| && l1.st.cells[i].inUse ==>
                 t.now - l1.st.cells[i].lastTouched < ttlMs * 1000 + Interval(ttlMs)
  {
    if t.now - l.lastReap >= Interval(ttlMs) {
      SweepExact(cfg, l.st, t.sweepNow, ttlMs * 1000, 0);
      ReapKeepsInv(cfg, l.st, t.sweepNow, ttlMs * 1000, 0);
    }
  }

  lemma IterateRecent(cfg: Config, ttlMs: nat, l: Loop, t: Turn)
    requires Inv(cfg, l.st) && Recent(l, ttlMs * 1000) && 0 < ttlMs
    requires l.lastReap <= t.now <= t.sweepNow <= t.recvNow
    ensures var l' := Iterate(cfg, ttlMs, l, t);
            && Inv(cfg, l'.st) && Recent(l', ttlMs * 1000) && l'.lastReap <= t.now
            && forall i :: 0 <= i < |l'.st.cells| && l'.st.cells[i].inUse ==>
                 t.now - l'.st.cells[i].lastTouched < ttlMs * 1000 + Interval(ttlMs)
  {
    var l1 := ReapCheck(cfg, ttlMs, l, t);
    ReapCheckRecent(cfg, ttlMs, l, t);
    if t.arrival.Some? {
      ProcessKeepsInv(cfg, l1.st, t.arrival.value, t.recvNow);
      forall i | 0 <= i < |l1.st.cells|
        ensures var c := Iterate(cfg, ttlMs, l, t).st.cells[i]; c.inUse ==> c == l1.st.cells[i] || c.lastTouched == t.recvNow
      {
        ProcessStamps(cfg, l1.st, t.arrival.value, t.recvNow, i);
      }
    }
  }

  lemma {:induction false} LoopRecent(cfg: Config, ttlMs: nat, slots: nat, jobs: nat, start: int, turns: seq<Turn>)
    requires 0 < ttlMs && 0 < slots < TWO32 && 0 < jobs && ClockFrom(start, turns)
    ensures var l := LoopRun(cfg, ttlMs, Loop(Empty(slots, jobs), start), turns);
            Inv(cfg, l.st) && Recent(l, ttlMs * 1000) && l.lastReap <= if turns == [] then start else turns[|turns| - 1].now
  {
    if turns == [] {
      EmptyInv(cfg, slots, jobs);
    } else {
      var before := turns[..|turns| - 1];
      LoopRecent(cfg, ttlMs, slots, jobs, start, before);
      if before != [] {
        assert turns[|turns| - 2].recvNow <= turns[|turns| - 1].now;
      }
      IterateRecent(cfg, ttlMs, LoopRun(cfg, ttlMs, Loop(Empty(slots, jobs), start), before), turns[|turns| - 1]);
    }
  }

  lemma ProcessReapsNothing(cfg: Config, st: State, p: Packet, now: int)
    requires Shaped(st.cells, st.jobs)
    ensures Process(cfg, st, p, now).1.reaped == st.reaped
  {
    if Admissible(p) {
      SlotHandedOut(cfg, st, p.key);
    }
  }

  lemma {:induction false} ExpiredFromWithin(cells: seq<Cell>, now: int, ttl: int, i: nat)
    requires i <= |cells|
    ensures forall c :: c in ExpiredFrom(cells, now, ttl, i) ==> c in cells && Expired(c, now, ttl)
    decreases |cells| - i
  {
    if i < |cells| {
      ExpiredFromWithin(cells, now, ttl, i + 1);
    }
  }

  // ------------------------------------------------------- ages, told from the turns

  /** The loop as it starts. */
  function Start(slots: nat, jobs: nat, start: int): (r: Loop)
    requires 0 < slots && 0 < jobs
    ensures Shaped(r.st.cells, r.st.jobs) && |r.st.cells| == slots
  {
    Loop(Empty(slots, jobs), start)
  }

  /** Turn `t` received a packet that cell `i` took. */
  ghost predicate TurnTook(cfg: Config, ttlMs: nat, l: Loop, t: Turn, i: nat)
    requires Shaped(l.st.cells, l.st.jobs) && i < |l.st.cells|
  {
    t.arrival.Some? && TookInto(ReapCheck(cfg, ttlMs, l, t).st, Iterate(cfg, ttlMs, l, t).st, i)
  }

  /** When cell `i` last took a packet, by the clock readings of the turns. */
  ghost function LastTook(cfg: Config, ttlMs: nat, l: Loop, turns: seq<Turn>, i: nat): Option<int>
    requires Shaped(l.st.cells, l.st.jobs) && i < |l.st.cells|
  {
    if turns == [] then None
    else
      var before, t := turns[..|turns| - 1], turns[|turns| - 1];
      if TurnTook(cfg, ttlMs, LoopRun(cfg, ttlMs, l, before), t, i) then Some(t.recvNow)
      else LastTook(cfg, ttlMs, l, before, i)
  }

  lemma ReapCheckCell(cfg: Config, ttlMs: nat, l: Loop, t: Turn, i: nat)
    requires Shaped(l.st.cells, l.st.jobs) && i < |l.st.cells|
    ensures var c := ReapCheck(cfg, ttlMs, l, t).st.cells[i]; c.inUse ==> c == l.st.cells[i]
  {
    SweepExact(cfg, l.st, t.sweepNow, ttlMs * 1000, 0);
  }

  /** A slot's timestamp is the time of its last contribution, over the whole run. */
  lemma {:induction false} StampIsLastTook(cfg: Config, ttlMs: nat, slots: nat, jobs: nat, start: int, turns: seq<Turn>, i: nat)
    requires 0 < slots < TWO32 && 0 < jobs && i < slots
    ensures var l := LoopRun(cfg, ttlMs, Start(slots, jobs, start), turns);
            Inv(cfg, l.st) &&
            (l.st.cells[i].inUse ==> LastTook(cfg, ttlMs, Start(slots, jobs, start), turns, i) == Some(l.st.cells[i].lastTouched))
  {
    if turns == [] {
      EmptyInv(cfg, slots, jobs);
    } else {
      var before, t := turns[..|turns| - 1], turns[|turns| - 1];
      var l := LoopRun(cfg, ttlMs, Start(slots, jobs, start), before);
      var l1 := ReapCheck(cfg, ttlMs, l, t);
      StampIsLastTook(cfg, ttlMs, slots, jobs, start, before, i);
      ReapKeepsInv(cfg, l.st, t.sweepNow, ttlMs * 1000, 0);
      ReapCheckCell(cfg, ttlMs, l, t, i);
      if t.arrival.Some? {
        ProcessKeepsInv(cfg, l1.st, t.arrival.value, t.recvNow);
        ProcessStamps(cfg, l1.st, t.arrival.value, t.recvNow, i);
      }
    }
  }

  /**
   The age bound: at the end of any turn of any run, whether it received a packet or
   not, every slot in use took a contribution less than ttl + max(1 ms, ttl / 4)
   before the turn's own clock reading.
   */
  lemma AgeBound(cfg: Config, ttlMs: nat, slots: nat, jobs: nat, start: int, turns: seq<Turn>, t: Turn, i: nat)
    requires 0 < ttlMs && 0 < slots < TWO32 && 0 < jobs && ClockFrom(start, turns + [t]) && i < slots
    ensures LoopRun(cfg, ttlMs, Start(slots, jobs, start), turns + [t]).st.cells[i].inUse ==>
              var last := LastTook(cfg, ttlMs, Start(slots, jobs, start), turns + [t], i);
              last.Some? && t.now - last.value < ttlMs * 1000 + (if ttlMs / 4 < 1 then 1 else ttlMs / 4) * 1000
  {
    assert (turns + [t])[|turns|] == t && (turns + [t])[..|turns|] == turns;
    assert forall k :: 0 <= k < |turns| ==> (turns + [t])[k] == turns[k];
    assert ClockFrom(start, turns);
    LoopRecent(cfg, ttlMs, slots, jobs, start, turns);
    IterateRecent(cfg, ttlMs, LoopRun(cfg, ttlMs, Start(slots, jobs, start), turns), t);
    StampIsLastTook(cfg, ttlMs, slots, jobs, start, turns + [t], i);
  }

  /** A sweep that runs evicts a slot exactly when the slot took nothing for a TTL. */
  lemma EvictedIff(cfg: Config, ttlMs: nat, slots: nat, jobs: nat, start: int, turns: seq<Turn>, t: Turn, i: nat)
    requires 0 < ttlMs && 0 < slots < TWO32 && 0 < jobs && i < slots
    requires var l := LoopRun(cfg, ttlMs, Start(slots, jobs, start), turns);
             l.st.cells[i].inUse && t.now - l.lastReap >= (if ttlMs / 4 < 1 then 1 else ttlMs / 4) * 1000
    ensures var l := LoopRun(cfg, ttlMs, Start(slots, jobs, start), turns);
            var last := LastTook(cfg, ttlMs, Start(slots, jobs, start), turns, i);
            last.Some? && (!ReapCheck(cfg, ttlMs, l, t).st.cells[i].inUse <==> t.sweepNow - last.value >= ttlMs * 1000)
  {
    var l := LoopRun(cfg, ttlMs, Start(slots, jobs, start), turns);
    StampIsLastTook(cfg, ttlMs, slots, jobs, start, turns, i);
    SweepExact(cfg, l.st, t.sweepNow, ttlMs * 1000, 0);
  }

  /** Turn `k` evicted `c` from cell `i`, which had taken nothing for a TTL. */
  ghost predicate EvictedSilent(cfg: Config, ttlMs: nat, l: Loop, turns: seq<Turn>, k: nat, i: nat, c: Cell)
    requires Shaped(l.st.cells, l.st.jobs) && k < |turns| && i < |l.st.cells|
  {
    var last := LastTook(cfg, ttlMs, l, turns[..k], i);
    && c == LoopRun(cfg, ttlMs, l, turns[..k]).st.cells[i]
    && last.Some? && turns[k].sweepNow - last.value >= ttlMs * 1000
  }

  ghost predicate WasSilent(cfg: Config, ttlMs: nat, l: Loop, turns: seq<Turn>, c: Cell)
    requires Shaped(l.st.cells, l.st.jobs)
  {
    exists k: nat, i: nat :: k < |turns| && i < |l.st.cells| && EvictedSilent(cfg, ttlMs, l, turns, k, i, c)
  }

  lemma SilentStays(cfg: Config, ttlMs: nat, l: Loop, before: seq<Turn>, t: Turn, c: Cell)
    requires Shaped(l.st.cells, l.st.jobs) && WasSilent(cfg, ttlMs, l, before, c)
    ensures WasSilent(cfg, ttlMs, l, before + [t], c)
  {
    var k: nat, i: nat :| k < |before| && i < |l.st.cells| && EvictedSilent(cfg, ttlMs, l, before, k, i, c);
    assert (before + [t])[..k] == before[..k];
    assert EvictedSilent(cfg, ttlMs, l, before + [t], k, i, c);
  }

  /** What a turn evicts is in the table before it, and expired. */
  lemma TurnReaps(cfg: Config, ttlMs: nat, l: Loop, t: Turn)
    requires Shaped(l.st.cells, l.st.jobs)
    ensures var reaped, reaped' := l.st.reaped, Iterate(cfg, ttlMs, l, t).st.reaped;
            && reaped <= reaped'
            && forall c :: c in reaped'[|reaped|..] ==> c in l.st.cells && Expired(c, t.sweepNow, ttlMs * 1000)
  {
    SweepExact(cfg, l.st, t.sweepNow, ttlMs * 1000, 0);
    ExpiredFromWithin(l.st.cells, t.sweepNow, ttlMs * 1000, 0);
    if t.arrival.Some? {
      ProcessReapsNothing(cfg, ReapCheck(cfg, ttlMs, l, t).st, t.arrival.value, t.recvNow);
    }
  }

  /** Every slot ever evicted had taken nothing for a TTL when it was: a touched slot survives that long. */
  lemma {:induction false} TouchedSlotsSurvive(cfg: Config, ttlMs: nat, slots: nat, jobs: nat, start: int, turns: seq<Turn>)
    requires 0 < slots < TWO32 && 0 < jobs
    ensures forall c :: c in LoopRun(cfg, ttlMs, Start(slots, jobs, start), turns).st.reaped ==>
              WasSilent(cfg, ttlMs, Start(slots, jobs, start), turns, c)
  {
    if turns != [] {
      var l0, before, t := Start(slots, jobs, start), turns[..|turns| - 1], turns[|turns| - 1];
      var l := LoopRun(cfg, ttlMs, l0, before);
      TouchedSlotsSurvive(cfg, ttlMs, slots, jobs, start, before);
      TurnReaps(cfg, ttlMs, l, t);
      assert before + [t] == turns;
      forall c | c in LoopRun(cfg, ttlMs, l0, turns).st.reaped ensures WasSilent(cfg, ttlMs, l0, turns, c) {
        if c in l.st.reaped {
          SilentStays(cfg, ttlMs, l0, before, t, c);
        } else {
          assert c in LoopRun(cfg, ttlMs, l0, turns).st.reaped[|l.st.reaped|..];
          var i :| 0 <= i < |l.st.cells| && l.st.cells[i] == c;
          StampIsLastTook(cfg, ttlMs, slots, jobs, start, before, i);
          assert EvictedSilent(cfg, ttlMs, l0, turns, |before|, i, c);
        }
      }
    }
  }

  /** How many turns evicted something. */
  ghost function Evictions(cfg: Config, ttlMs: nat, l: Loop, turns: seq<Turn>): nat
    requires Shaped(l.st.cells, l.st.jobs)
  {
    if turns == [] then 0
    else
      var before := turns[..|turns| - 1];
      Evictions(cfg, ttlMs, l, before)
      + if LoopRun(cfg, ttlMs, l, turns).st.reaped != LoopRun(cfg, ttlMs, l, before).st.reaped then 1 else 0
  }

  lemma OneMore(n: nat, interval: int)
    ensures (n + 1) * interval == n * interval + interval
  {
  }

  /** The table is swept at most once per interval, and never with the TTL disabled. */
  lemma {:induction false} SweepsAreSpaced(cfg: Config, ttlMs: nat, l: Loop, turns: seq<Turn>)
    requires Shaped(l.st.cells, l.st.jobs)
    ensures var l' := LoopRun(cfg, ttlMs, l, turns);
            if ttlMs == 0 then l'.st.reaped == l.st.reaped && l'.lastReap == l.lastReap
            else
              var everyMs := if ttlMs / 4 < 1 then 1 else ttlMs / 4;
              Evictions(cfg, ttlMs, l, turns) * (everyMs * 1000) <= l'.lastReap - l.lastReap
  {
    if turns != [] {
      var before, t := turns[..|turns| - 1], turns[|turns| - 1];
      var m := LoopRun(cfg, ttlMs, l, before);
      SweepsAreSpaced(cfg, ttlMs, l, before);
      OneMore(Evictions(cfg, ttlMs, l, before), Interval(ttlMs));
      if t.arrival.Some? {
        ProcessReapsNothing(cfg, ReapCheck(cfg, ttlMs, m, t).st, t.arrival.value, t.recvNow);
      }
    }
  }

  // ------------------------------------------------------------------- survival

  /** Should turn `t` sweep, every slot of the key took a packet less than a TTL before. */
  ghost predicate InTime(cfg: Config, ttlMs: nat, l: Loop, before: seq<Turn>, t: Turn, key: Key)
    requires Shaped(l.st.cells, l.st.jobs)
  {
    var cells := LoopRun(cfg, ttlMs, l, before).st.cells;
    forall i :: 0 <= i < |cells| && cells[i].inUse && cells[i].key == key ==>
      var last := LastTook(cfg, ttlMs, l, before, i); last.Some? && t.sweepNow < last.value + ttlMs * 1000
  }

  /** The key's slots take packets at gaps below the TTL all along the run. */
  ghost predicate KeptAlive(cfg: Config, ttlMs: nat, l: Loop, turns: seq<Turn>, key: Key)
    requires Shaped(l.st.cells, l.st.jobs)
  {
    turns != [] ==>
      && KeptAlive(cfg, ttlMs, l, turns[..|turns| - 1], key)
      && InTime(cfg, ttlMs, l, turns[..|turns| - 1], turns[|turns| - 1], key)
  }

  /** A turn that finds the key's slots touched less than a TTL before its sweep evicts none of them. */
  lemma TurnSpares(cfg: Config, ttlMs: nat, l: Loop, t: Turn, key: Key)
    requires Shaped(l.st.cells, l.st.jobs)
    requires forall i :: 0 <= i < |l.st.cells| && l.st.cells[i].inUse && l.st.cells[i].key == key
               ==> t.sweepNow < l.st.cells[i].lastTouched + ttlMs * 1000
    ensures var l' := Iterate(cfg, ttlMs, l, t);
            l.st.reaped <= l'.st.reaped && forall c :: c in l'.st.reaped[|l.st.reaped|..] ==> c.key != key
  {
    TurnReaps(cfg, ttlMs, l, t);
    forall c | c in Iterate(cfg, ttlMs, l, t).st.reaped[|l.st.reaped|..] ensures c.key != key {
      var i :| 0 <= i < |l.st.cells| && l.st.cells[i] == c;
    }
  }

  /** A key whose slots keep taking packets at gaps below the TTL is never evicted. */
  lemma {:induction false} KeptAliveNeverReaped(cfg: Config, ttlMs: nat, slots: nat, jobs: nat, start: int, turns: seq<Turn>, key: Key)
    requires 0 < slots < TWO32 && 0 < jobs && KeptAlive(cfg, ttlMs, Start(slots, jobs, start), turns, key)
    ensures forall c :: c in LoopRun(cfg, ttlMs, Start(slots, jobs, start), turns).st.reaped ==> c.key != key
  {
    if turns != [] {
      var before, t := turns[..|turns| - 1], turns[|turns| - 1];
      var m := LoopRun(cfg, ttlMs, Start(slots, jobs, start), before);
      KeptAliveNeverReaped(cfg, ttlMs, slots, jobs, start, before, key);
      forall i | 0 <= i < |m.st.cells| && m.st.cells[i].inUse && m.st.cells[i].key == key
        ensures t.sweepNow < m.st.cells[i].lastTouched + ttlMs * 1000
      {
        StampIsLastTook(cfg, ttlMs, slots, jobs, start, before, i);
      }
      TurnSpares(cfg, ttlMs, m, t, key);
    }
  }

  // ------------------------------------------------------------ survival by the key

  /** When a packet of the key was last accepted, by the clock readings of the turns. */
  ghost function LastAccepted(cfg: Config, ttlMs: nat, l: Loop, turns: seq<Turn>, key: Key): Option<int>
    requires Shaped(l.st.cells, l.st.jobs)
  {
    if turns == [] then None
    else
      var before, t := turns[..|turns| - 1], turns[|turns| - 1];
      if t.arrival.Some? && t.arrival.value.key == key
         && LoopRun(cfg, ttlMs, l, turns).st.accepted != LoopRun(cfg, ttlMs, l, before).st.accepted
      then Some(t.recvNow) else LastAccepted(cfg, ttlMs, l, before, key)
  }

  /** Probing for the key leads to every slot it has, so it has at most one. */
  ghost predicate Findable(cfg: Config, cells: seq<Cell>, key: Key) {
    forall i :: 0 <= i < |cells| && cells[i].inUse && cells[i].key == key ==> Reached(SlotView(cells), cfg.slotHash, i)
  }

  /** The table at every packet's arrival has the key findable, and the key's packets come at gaps below the TTL. */
  ghost predicate Fed(cfg: Config, ttlMs: nat, l: Loop, turns: seq<Turn>, key: Key)
    requires Shaped(l.st.cells, l.st.jobs)
  {
    turns != [] ==>
      var before, t := turns[..|turns| - 1], turns[|turns| - 1];
      var m, last := LoopRun(cfg, ttlMs, l, before), LastAccepted(cfg, ttlMs, l, before, key);
      && Fed(cfg, ttlMs, l, before, key)
      && Findable(cfg, ReapCheck(cfg, ttlMs, m, t).st.cells, key)
      && ((exists i :: 0 <= i < |m.st.cells| && m.st.cells[i].inUse && m.st.cells[i].key == key) ==>
            last.Some? && t.sweepNow < last.value + ttlMs * 1000)
  }

  /** While the key is findable its packets go to its slot, the only one. */
  lemma ProcessStampsKey(cfg: Config, st: State, p: Packet, now: int, i: nat)
    requires Inv(cfg, st) && Findable(cfg, st.cells, p.key) && i < |st.cells|
    ensures var st' := Process(cfg, st, p, now).1;
            st'.cells[i].inUse && st'.cells[i].key == p.key && st'.accepted != st.accepted ==> st'.cells[i].lastTouched == now
  {
    if Admissible(p) {
      var r := FindOrCreateSlot(cfg, st, p.key);
      SlotHandedOut(cfg, st, p.key);
      FindOrCreateSlotKeepsInv(cfg, st, p.key);
      if r.0.Some? {
        ContributeAnswers(cfg, r.1, r.0.value, p, now);
        if st.cells[i].inUse && st.cells[i].key == p.key {
          assert SlotView(st.cells)[i] == Some(p.key);
          VisitsOnce(cfg.slotHash(p.key), i, |st.cells|);
        }
      }
    }
  }

  /** After a turn the key's slot is stamped by the turn's packet of the key, if one was accepted, or is as before. */
  lemma TurnStampsKey(cfg: Config, ttlMs: nat, l: Loop, t: Turn, key: Key, i: nat)
    requires Inv(cfg, l.st) && i < |l.st.cells| && Findable(cfg, ReapCheck(cfg, ttlMs, l, t).st.cells, key)
    ensures var l' := Iterate(cfg, ttlMs, l, t);
            l'.st.cells[i].inUse && l'.st.cells[i].key == key ==>
              if t.arrival.Some? && t.arrival.value.key == key && l'.st.accepted != l.st.accepted
              then l'.st.cells[i].lastTouched == t.recvNow
              else l'.st.cells[i] == l.st.cells[i]
  {
    var l1 := ReapCheck(cfg, ttlMs, l, t);
    ReapKeepsInv(cfg, l.st, t.sweepNow, ttlMs * 1000, 0);
    ReapCheckCell(cfg, ttlMs, l, t, i);
    SweepExact(cfg, l.st, t.sweepNow, ttlMs * 1000, 0);
    if t.arrival.Some? {
      ProcessStamps(cfg, l1.st, t.arrival.value, t.recvNow, i);
      if t.arrival.value.key == key {
        ProcessStampsKey(cfg, l1.st, t.arrival.value, t.recvNow, i);
      }
    }
  }

  lemma {:induction false} StampIsLastAccepted(cfg: Config, ttlMs: nat, slots: nat, jobs: nat, start: int, turns: seq<Turn>, key: Key, i: nat)
    requires 0 < slots < TWO32 && 0 < jobs && i < slots && Fed(cfg, ttlMs, Start(slots, jobs, start), turns, key)
    ensures var c := LoopRun(cfg, ttlMs, Start(slots, jobs, start), turns).st.cells[i];
            c.inUse && c.key == key ==> LastAccepted(cfg, ttlMs, Start(slots, jobs, start), turns, key) == Some(c.lastTouched)
  {
    if turns != [] {
      var before, t := turns[..|turns| - 1], turns[|turns| - 1];
      StampIsLastAccepted(cfg, ttlMs, slots, jobs, start, before, key, i);
      StampIsLastTook(cfg, ttlMs, slots, jobs, start, before, i);
      TurnStampsKey(cfg, ttlMs, LoopRun(cfg, ttlMs, Start(slots, jobs, start), before), t, key, i);
    }
  }

  /** A findable key of which packets keep being accepted at gaps below the TTL is never evicted. */
  lemma {:induction false} FedNeverReaped(cfg: Config, ttlMs: nat, slots: nat, jobs: nat, start: int, turns: seq<Turn>, key: Key)
    requires 0 < slots < TWO32 && 0 < jobs && Fed(cfg, ttlMs, Start(slots, jobs, start), turns, key)
    ensures forall c :: c in LoopRun(cfg, ttlMs, Start(slots, jobs, start), turns).st.reaped ==> c.key != key
  {
    if turns != [] {
      var before, t := turns[..|turns| - 1], turns[|turns| - 1];
      var m := LoopRun(cfg, ttlMs, Start(slots, jobs, start), before);
      FedNeverReaped(cfg, ttlMs, slots, jobs, start, before, key);
      forall i | 0 <= i < |m.st.cells| && m.st.cells[i].inUse && m.st.cells[i].key == key
        ensures t.sweepNow < m.st.cells[i].lastTouched + ttlMs * 1000
      {
        StampIsLastAccepted(cfg, ttlMs, slots, jobs, start, before, key, i);
      }
      TurnSpares(cfg, ttlMs, m, t, key);
    }
  }
}
