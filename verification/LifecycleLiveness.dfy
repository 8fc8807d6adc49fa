/** No task is ever stuck: it can take its next step or waits for something that is under way. */
module LifecycleLiveness {
  import opened Options
  import opened Residents
  import opened Lifecycle
  import opened LifecycleInvariant
  import opened LifecycleSteps
  import opened LifecycleActions
  import opened LifecycleRequests
  import opened LifecycleLoads
  import opened LifecycleInduction
  import opened LifecycleTheorems
  import opened LifecycleRegistry

  /** The sections that take the registry lock. */
  predicate NeedsMu(pc: Pc, finished: bool) {
    || pc.Retry? || (pc.TurnedAway? && !finished && !pc.follower) || pc.Joined?
    || pc.Unregistering? || pc.Evict? || pc.Awaiting?
  }

  /** What a task may be waiting for: a broadcast, the end of a load, the registry lock. */
  predicate Waits(s: State, t: Task)
    requires t in s.tasks
  {
    var pc := s.tasks[t];
    || (pc.Asleep? && pc.i in s.residents && t in s.residents[pc.i].waiters)
    || (pc.DrainAsleep? && pc.i in s.residents && t in s.residents[pc.i].drainers)
    || (pc.Joined? && t !in s.finished && !Ready(s, pc.l))
    || (pc.Awaiting? && pc.load.Some? && t !in s.finished && !Ready(s, pc.load.value))
    || (NeedsMu(pc, t in s.finished) && s.mu.Some? && s.mu.value != t)
  }

  ghost function RetryStep(s: State, t: Task, m: Model): RequestAction {
    if s.closed then EnterClosed(t)
    else if m in s.instances && s.instances[m] in s.alive then EnterResident(t)
    else if m in s.instances then EnterDead(t, Above(s.loads.Keys))
    else if m in s.loading then EnterJoin(t)
    else EnterLoad(t, Above(s.loads.Keys))
  }

  function ProbedStep(s: State, t: Task): LoadAction {
    if s.mu.Some? then StopProbe(t)
    else if s.closed then SettleClosed(t)
    else if s.cap > 0 && |s.instances| >= s.cap then StartScan(t)
    else SettleRoom(t)
  }

  lemma ProbedSteps(s: State, t: Task)
    requires Inv(s) && t in s.tasks && s.tasks[t].Probing?
    ensures LoaderEnabled(s, ProbedStep(s, t))
  {
    hide Inv, PcOk;
    InvPc(s, t);
    ProbingKnown(s, t);
  }

  lemma ProbingKnown(s: State, t: Task)
    requires t in s.tasks && s.tasks[t].Probing? && PcOk(s, t)
    ensures s.tasks[t].l in s.loads
  {
  }

  ghost function ScanStep(s: State, t: Task, ages: map<Model, int>): LoadAction {
    if ages.Keys == s.instances.Keys then
      if exists victim :: Oldest(ages, victim) then
        var victim :| Oldest(ages, victim);
        EvictOldest(t, victim, Above(s.tasks.Keys))
      else StartScan(t)
    else if exists id :: id in s.instances && id !in ages then
      var id :| id in s.instances && id !in ages;
      ScanOne(t, id)
    else StartScan(t)
  }

  lemma {:induction false} OldestExists(ages: map<Model, int>, keys: set<Model>) returns (victim: Model)
    requires keys <= ages.Keys && keys != {}
    ensures victim in keys && forall id | id in keys :: ages[victim] <= ages[id]
    decreases keys
  {
    var id :| id in keys;
    if keys == {id} {
      return id;
    }
    victim := OldestExists(ages, keys - {id});
    assert forall other | other in keys :: other == id || other in keys - {id};
    if ages[id] < ages[victim] {
      victim := id;
    }
  }

  lemma ScanSteps(s: State, t: Task)
    requires Inv(s) && t in s.tasks && s.tasks[t].Scanning?
    ensures LoaderEnabled(s, ScanStep(s, t, s.tasks[t].ages))
  {
    hide Inv, Registered;
    ScanningFacts(s, t);
    var ages := s.tasks[t].ages;
    if ages.Keys == s.instances.Keys {
      assert s.instances != map[];
      var victim := OldestExists(ages, ages.Keys);
      assert Oldest(ages, victim);
      EntriesKnown(s);
    } else {
      var id :| id in s.instances.Keys && id !in ages.Keys;
      EntriesKnown(s);
    }
  }

  lemma EntriesKnown(s: State)
    requires Inv(s)
    ensures forall m | m in s.instances :: s.instances[m] in s.residents
  {
    InvRegistry(s);
  }

  /** One step that a task at its program counter takes when nothing holds it up. */
  ghost function NextStep(s: State, t: Task): Action
    requires t in s.tasks
  {
    match s.tasks[t]
    case Retry(m) => Request(RetryStep(s, t, m))
    case Acquire(_, _, _) => Request(Attempt(t, 0))
    case Asleep(_, _, _) => Request(Attempt(t, 0))
    case TurnedAway(_, _, _) => Request(TurnAway(t))
    case Serving(_) => Request(ReleaseSlot(t, 0))
    case Slotless(_) => Request(LeaveSlotless(t))
    case Joined(_, l) => if Ready(s, l) then Request(FollowReady(t)) else Request(FollowLeave(t))
    case Launching(_, _) => Loader(Launch(t, Above(s.owner.Keys)))
    case Probing(_, _, _) => Loader(ProbedStep(s, t))
    case Scanning(_, _, _, ages) => Loader(ScanStep(s, t, ages))
    case Settling(_, _, i) => if t in s.finished || i !in s.alive then Loader(Reject(t)) else Loader(Publish(t, 0, 1, 0))
    case Discarding(_) => Loader(Discard(t))
    case Sweeping(_, _) => if s.instances == map[] then Sweep(SweepEnd(t)) else (var m :| m in s.instances; Sweep(SweepOne(t, m)))
    case Reaping(toStop, why) =>
      if toStop != {} then (var i :| i in toStop; Sweep(ReapOne(t, i)))
      else if why.ForClose? && why.inFlight != {} then (var l :| l in why.inFlight; Sweep(if Ready(s, l) then ReapLoad(t, l) else GiveUp(t, l)))
      else Sweep(ReapEnd(t))
    case IdleCallback(_) => Drains(RunIdleCallback(t))
    case Drain(_, _) => Drains(DrainStep(t))
    case DrainAsleep(_, _) => Drains(DrainStep(t))
    case Unregistering(_, _) => Drains(Unregister(t))
    case Stopping(_, _) => Drains(StopDrained(t))
    case Evict(_) => Evicts(EvictSample(t))
    case Awaiting(_, _, load) =>
      if load.None? then Evicts(AwaitNothing(t))
      else if Ready(s, load.value) then Evicts(AwaitReady(t))
      else Evicts(AwaitLeave(t))
    case _ => Env(FinishContext(t))
  }

  lemma InstanceKnown(s: State, t: Task)
    requires Inv(s) && t in s.tasks
    requires s.tasks[t].Acquire? || s.tasks[t].Asleep? || s.tasks[t].TurnedAway? || s.tasks[t].Serving?
          || s.tasks[t].IdleCallback? || s.tasks[t].Drain? || s.tasks[t].DrainAsleep? || s.tasks[t].Unregistering?
    ensures s.tasks[t].i in s.residents
  {
    InvPc(s, t);
  }

  lemma RequestSteps(s: State, t: Task)
    requires Inv(s) && t in s.tasks && !Waits(s, t)
    requires s.tasks[t].Acquire? || s.tasks[t].Asleep? || s.tasks[t].TurnedAway? || s.tasks[t].Serving? || s.tasks[t].Slotless? || s.tasks[t].Joined?
    ensures Enabled(s, NextStep(s, t))
  {
    hide Inv;
    InvMu(s, t);
    if !s.tasks[t].Joined? && !s.tasks[t].Slotless? {
      InstanceKnown(s, t);
    }
  }

  lemma InvMu(s: State, t: Task)
    requires Inv(s) && t in s.tasks
    ensures s.mu == Some(t) <==> HoldsMu(s.tasks[t])
  {
    InvPc(s, t);
    InvRegistry(s);
  }

  lemma RetrySteps(s: State, t: Task)
    requires Inv(s) && t in s.tasks && !Waits(s, t) && s.tasks[t].Retry?
    ensures Enabled(s, NextStep(s, t))
  {
    hide Inv, RetryStep, RequestEnabled;
    InvMu(s, t);
    RetryEnabled(s, t, s.tasks[t].m);
  }

  lemma RetryEnabled(s: State, t: Task, m: Model)
    requires Inv(s) && t in s.tasks && s.tasks[t] == Retry(m) && s.mu.None?
    ensures RequestEnabled(s, RetryStep(s, t, m))
  {
    hide Inv, Registered;
    if m in s.instances {
      EntryOk(s, m);
    }
    if m in s.loading {
      LoadingOk(s, m);
    }
  }

  lemma LoaderSteps(s: State, t: Task)
    requires Inv(s) && t in s.tasks
    requires s.tasks[t].Launching? || s.tasks[t].Probing? || s.tasks[t].Scanning? || s.tasks[t].Settling? || s.tasks[t].Discarding?
    ensures Enabled(s, NextStep(s, t))
  {
    hide Inv;
    if s.tasks[t].Scanning? {
      ScanSteps(s, t);
      hide ScanStep, LoaderEnabled;
    } else if s.tasks[t].Probing? {
      ProbedSteps(s, t);
      hide ProbedStep, LoaderEnabled;
    } else {
      if s.tasks[t].Settling? {
        InvPc(s, t);
        SettlingFacts(s, t);
      }
      hide PcOk;
    }
  }

  lemma InFlightKnown(s: State, t: Task)
    requires Inv(s) && t in s.tasks && s.tasks[t].Reaping? && s.tasks[t].why.ForClose?
    ensures forall l | l in s.tasks[t].why.inFlight :: l in s.loads
  {
    InvPc(s, t);
  }

  lemma ReapSteps(s: State, t: Task)
    requires Inv(s) && t in s.tasks && s.tasks[t].Reaping?
    ensures Enabled(s, NextStep(s, t))
  {
    hide Inv;
    if s.tasks[t].why.ForClose? {
      InFlightKnown(s, t);
    }
  }

  lemma SweepSteps(s: State, t: Task)
    requires Inv(s) && t in s.tasks && s.tasks[t].Sweeping?
    ensures Enabled(s, NextStep(s, t))
  {
    hide Inv, Registered;
    var a := NextStep(s, t);
    if s.instances != map[] {
      SomeEntry(s.instances);
      EntryOk(s, a.sweep.m);
    }
  }

  lemma SomeEntry(m: map<Model, Inst>)
    requires m != map[]
    ensures exists k :: k in m
  {
  }

  lemma DrainSteps(s: State, t: Task)
    requires Inv(s) && t in s.tasks && !Waits(s, t)
    requires s.tasks[t].IdleCallback? || s.tasks[t].Drain? || s.tasks[t].DrainAsleep? || s.tasks[t].Unregistering? || s.tasks[t].Stopping?
    ensures Enabled(s, NextStep(s, t))
  {
    hide Inv;
    InvMu(s, t);
    if !s.tasks[t].Stopping? {
      InstanceKnown(s, t);
    }
  }

  lemma EvictSteps(s: State, t: Task)
    requires Inv(s) && t in s.tasks && !Waits(s, t) && (s.tasks[t].Evict? || s.tasks[t].Awaiting?)
    ensures Enabled(s, NextStep(s, t))
  {
    hide Inv;
    InvMu(s, t);
    if s.tasks[t].Evict? && s.tasks[t].m in s.loading {
      LoadingOk(s, s.tasks[t].m);
    }
  }

  lemma Steps(s: State, t: Task)
    requires Inv(s) && t in s.tasks && !Waits(s, t)
    ensures Enabled(s, NextStep(s, t))
  {
    hide Inv, Waits, Enabled, NextStep;
    var pc := s.tasks[t];
    if pc.Acquire? || pc.Asleep? || pc.TurnedAway? || pc.Serving? || pc.Slotless? || pc.Joined? {
      RequestSteps(s, t);
    } else if pc.Retry? {
      RetrySteps(s, t);
    } else if pc.Launching? || pc.Probing? || pc.Scanning? || pc.Settling? || pc.Discarding? {
      LoaderSteps(s, t);
    } else if pc.Sweeping? {
      SweepSteps(s, t);
    } else if pc.Reaping? {
      ReapSteps(s, t);
    } else if pc.IdleCallback? || pc.Drain? || pc.DrainAsleep? || pc.Unregistering? || pc.Stopping? {
      DrainSteps(s, t);
    } else if pc.Evict? || pc.Awaiting? {
      EvictSteps(s, t);
    } else {
      DoneSteps(s, t);
    }
  }

  lemma DoneSteps(s: State, t: Task)
    requires t in s.tasks && (s.tasks[t].Evicted? || s.tasks[t].Returned?)
    ensures Enabled(s, NextStep(s, t))
  {
  }

  /** In every reachable state every task can take its next step, or it waits; the task that
      holds the registry lock never waits, and a load that is waited for has a loader under way. */
  lemma NeverStuck(states: seq<State>, actions: seq<Action>, k: nat, t: Task)
    requires IsRun(states, actions) && k < |states| && t in states[k].tasks
    ensures var s := states[k];
            && (Waits(s, t) || Enabled(s, NextStep(s, t)))
            && (s.mu == Some(t) ==> !Waits(s, t))
            && (s.tasks[t].Joined? && !Ready(s, s.tasks[t].l) ==> UnderWay(s, s.tasks[t].l))
            && (s.tasks[t].Awaiting? && s.tasks[t].load.Some? && !Ready(s, s.tasks[t].load.value) ==>
                  UnderWay(s, s.tasks[t].load.value))
  {
    var s := states[k];
    Reachable(states, actions, k);
    hide IsRun, Inv, Enabled, NextStep, UnderWay;
    if !Waits(s, t) {
      Steps(s, t);
    }
    InvMu(s, t);
    if s.tasks[t].Joined? && !Ready(s, s.tasks[t].l) {
      JoinedUnderWay(s, t);
    }
    if s.tasks[t].Awaiting? && s.tasks[t].load.Some? && !Ready(s, s.tasks[t].load.value) {
      AwaitedUnderWay(s, t);
    }
  }

  /** The loader of the load is running `launchInstance` or settling. */
  predicate UnderWay(s: State, l: LoadId) {
    && l in s.loads && s.loads[l].loader in s.tasks
    && IsLoading(s.tasks[s.loads[l].loader], s.loads[l].model, l)
  }

  lemma JoinedUnderWay(s: State, t: Task)
    requires Inv(s) && t in s.tasks && s.tasks[t].Joined? && !Ready(s, s.tasks[t].l)
    ensures UnderWay(s, s.tasks[t].l)
  {
    InvPc(s, t);
    LoaderOfUnready(s, s.tasks[t].l);
  }

  lemma AwaitedUnderWay(s: State, t: Task)
    requires Inv(s) && t in s.tasks && s.tasks[t].Awaiting? && s.tasks[t].load.Some? && !Ready(s, s.tasks[t].load.value)
    ensures UnderWay(s, s.tasks[t].load.value)
  {
    InvPc(s, t);
    LoaderOfUnready(s, s.tasks[t].load.value);
  }

  // ----- No deadlock

  predicate Done(pc: Pc) {
    pc.Returned? || pc.Evicted?
  }

  /** Task `u` is not done and can take its next step. */
  ghost predicate CanMove(s: State, u: Task) {
    u in s.tasks && !Done(s.tasks[u]) && !Waits(s, u) && Enabled(s, NextStep(s, u))
  }

  lemma SomeHolder(s: State, i: Inst) returns (u: Task)
    requires Inv(s) && i in s.residents && s.residents[i].waiters + s.residents[i].drainers != {}
    ensures u in s.tasks && s.tasks[u] == Serving(i)
  {
    InvInst(s, i);
    hide Inv;
    u :| u in s.residents[i].grants;
  }

  lemma HolderCanMove(s: State, i: Inst)
    requires Inv(s) && i in s.residents && s.residents[i].waiters + s.residents[i].drainers != {}
    ensures exists u :: CanMove(s, u)
  {
    hide Inv, Enabled, NextStep;
    var u := SomeHolder(s, i);
    Steps(s, u);
    assert CanMove(s, u);
  }

  lemma LoaderCanMove(s: State, l: LoadId)
    requires Inv(s) && UnderWay(s, l)
    ensures exists u :: CanMove(s, u)
  {
    hide Inv, Enabled, NextStep;
    var u := s.loads[l].loader;
    assert !Waits(s, u);
    Steps(s, u);
    assert CanMove(s, u);
  }

  lemma LockHolderCanMove(s: State)
    requires Inv(s) && s.mu.Some?
    ensures exists u :: CanMove(s, u)
  {
    InvRegistry(s);
    hide Inv, Enabled, NextStep;
    var u := s.mu.value;
    assert !Waits(s, u);
    Steps(s, u);
    assert CanMove(s, u);
  }

  lemma WaitingIsFor(s: State, t: Task)
    requires Inv(s) && t in s.tasks && Waits(s, t)
    ensures || s.mu.Some?
            || (exists l :: UnderWay(s, l))
            || (exists i :: i in s.residents && s.residents[i].waiters + s.residents[i].drainers != {})
  {
    hide Inv, UnderWay;
    var pc := s.tasks[t];
    if pc.Joined? && !Ready(s, pc.l) {
      JoinedUnderWay(s, t);
    } else if pc.Awaiting? && pc.load.Some? && !Ready(s, pc.load.value) {
      AwaitedUnderWay(s, t);
    }
  }

  /** There is no deadlock: while some task is not done, some task that is not done can move. */
  lemma NoDeadlock(states: seq<State>, actions: seq<Action>, k: nat, t: Task)
    requires IsRun(states, actions) && k < |states| && t in states[k].tasks && !Done(states[k].tasks[t])
    ensures exists u :: CanMove(states[k], u)
  {
    var s := states[k];
    Reachable(states, actions, k);
    hide IsRun, Inv, Enabled, NextStep, UnderWay, Waits;
    if !Waits(s, t) {
      Steps(s, t);
      assert CanMove(s, t);
    } else {
      WaitingIsFor(s, t);
      if s.mu.Some? {
        LockHolderCanMove(s);
      } else if l :| UnderWay(s, l) {
        LoaderCanMove(s, l);
      } else {
        var i :| i in s.residents && s.residents[i].waiters + s.residents[i].drainers != {};
        HolderCanMove(s, i);
      }
    }
  }
}
