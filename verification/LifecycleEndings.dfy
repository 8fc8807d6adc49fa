/** What sweeps, shutdowns, drains, idle callbacks and evictions have done when they end, in every run. */
module LifecycleEndings {
  import opened Options
  import opened Residents
  import opened Lifecycle
  import opened LifecycleInvariant
  import opened LifecycleSteps
  import opened LifecycleActions
  import opened LifecycleRequests
  import opened LifecycleLoads
  import opened LifecycleInduction
  import opened LifecycleMonotone
  import opened LifecycleTheorems
  import opened LifecycleRegistry
  import opened LifecycleProgress
  import opened LifecycleFrames

  // ----- Sweeps

  /** The task is in the middle of a sweep that began in state `s0`. What was registered then is still
      to be swept, or about to be told to stop, or has been; once swept it is stopped. */
  ghost predicate Sweeps(s0: State, s: State, t: Task) {
    && t in s.tasks && (s.tasks[t].Sweeping? || s.tasks[t].Reaping?)
    && forall m | m in s0.instances ::
         || (s.tasks[t].Sweeping? && m in s.instances && s.instances[m] == s0.instances[m])
         || (s0.instances[m] in s.residents && s.residents[s0.instances[m]].stopped
             && (s0.instances[m] in s.tasks[t].toStop || s0.instances[m] in s.stopIssued))
  }

  lemma SweepsHolds(s: State, t: Task)
    requires Inv(s) && t in s.tasks && s.tasks[t].Sweeping?
    ensures s.mu == Some(t)
  {
    SettlingHoldsMu(s, t);
  }

  /** Nothing that is stopped starts again, and no call of `Stop` is taken back. */
  lemma StopsStay(s: State, a: Action)
    requires Inv(s) && Enabled(s, a)
    ensures forall i | i in s.residents && s.residents[i].stopped :: i in Apply(s, a).residents && Apply(s, a).residents[i].stopped
    ensures s.stopIssued <= Apply(s, a).stopIssued
  {
    ActionOnward(s, a);
    hide Inv, Enabled, Apply;
    var s' := Apply(s, a);
    forall i | i in s.residents && s.residents[i].stopped
      ensures i in s'.residents && s'.residents[i].stopped
    {
      assert InstOnward(s, s', i);
    }
  }

  lemma StillSweeps(s0: State, s: State, s': State, t: Task)
    requires Sweeps(s0, s, t) && Still(s, s', t) && (s.tasks[t].Sweeping? ==> s.mu == Some(t))
    requires forall i | i in s.residents && s.residents[i].stopped :: i in s'.residents && s'.residents[i].stopped
    requires s.stopIssued <= s'.stopIssued
    ensures Sweeps(s0, s', t)
  {
  }

  lemma SweepOneOn(s0: State, s: State, t: Task, m: Model)
    requires Sweeps(s0, s, t) && SweepEnabled(s, SweepOne(t, m))
    ensures Sweeps(s0, ApplySweep(s, SweepOne(t, m)), t)
  {
    MarkStops(s.residents[s.instances[m]]);
    hide MarkStopped;
  }

  lemma MarkStops(r: Resident)
    ensures MarkStopped(r).stopped
  {
  }

  lemma ReapOn(s0: State, s: State, a: SweepAction)
    requires Sweeps(s0, s, a.t) && SweepEnabled(s, a) && (a.SweepEnd? || a.ReapOne? || a.ReapLoad? || a.GiveUp?)
    ensures Sweeps(s0, ApplySweep(s, a), a.t)
  {
  }

  predicate IsReapEnd(a: Action, t: Task) {
    a == Sweep(ReapEnd(t))
  }

  lemma SweepStepOn(s0: State, s: State, a: Action, t: Task)
    requires Inv(s) && Enabled(s, a) && Sweeps(s0, s, t) && !IsReapEnd(a, t)
    ensures Sweeps(s0, Apply(s, a), t)
  {
    if ActorOf(a) != Some(t) {
      if s.tasks[t].Sweeping? {
        SweepsHolds(s, t);
      }
      StopsStay(s, a);
      OnlyActorMoves(s, a, t);
      hide Sweeps, Still, Inv, Enabled, Apply;
      StillSweepsFrom(s0, s, Apply(s, a), t);
    } else {
      SweeperSweeps(s, a, t);
      hide Sweeps, Inv, SweepEnabled, ApplySweep;
      if a.sweep.SweepOne? {
        SweepOneOn(s0, s, t, a.sweep.m);
      } else {
        ReapOn(s0, s, a.sweep);
      }
    }
  }

  lemma StillSweepsFrom(s0: State, s: State, s': State, t: Task)
    requires Sweeps(s0, s, t) && Still(s, s', t) && (t in s.tasks && s.tasks[t].Sweeping? ==> s.mu == Some(t))
    requires forall i | i in s.residents && s.residents[i].stopped :: i in s'.residents && s'.residents[i].stopped
    requires s.stopIssued <= s'.stopIssued
    ensures Sweeps(s0, s', t)
  {
    StillSweeps(s0, s, s', t);
  }

  /** A task that sweeps does nothing else. */
  lemma SweeperSweeps(s: State, a: Action, t: Task)
    requires Enabled(s, a) && ActorOf(a) == Some(t) && t in s.tasks && (s.tasks[t].Sweeping? || s.tasks[t].Reaping?)
    requires !IsReapEnd(a, t)
    ensures a.Sweep? && SweepEnabled(s, a.sweep) && a.sweep.t == t
    ensures a.sweep.SweepOne? || a.sweep.SweepEnd? || a.sweep.ReapOne? || a.sweep.ReapLoad? || a.sweep.GiveUp?
  {
    hide Oldest;
  }

  predicate Starts(a: Action, t: Task) {
    a == Sweep(StartReset(t)) || a == Sweep(StartClose(t)) || a == Sweep(StartTuning(t))
  }

  lemma SweepStarts(s: State, a: Action, t: Task)
    requires Enabled(s, a) && Starts(a, t)
    ensures Sweeps(s, Apply(s, a), t)
  {
    hide Sweeps, EnvEnabled, RequestEnabled, LoaderEnabled, SweepEnabled, DrainsEnabled, EvictsEnabled;
    hide ApplyEnv, ApplyRequest, ApplyLoader, ApplySweep, ApplyDrains, ApplyEvicts;
    StartSweeps(s, a.sweep);
    SweepBegins(s, Apply(s, a), t, Apply(s, a).tasks[t]);
  }

  lemma StartSweeps(s: State, a: SweepAction)
    requires SweepEnabled(s, a) && (a.StartReset? || a.StartClose? || a.StartTuning?)
    ensures var s' := ApplySweep(s, a); a.t in s'.tasks && s'.tasks[a.t].Sweeping? && s'.instances == s.instances
  {
  }

  lemma SweepBegins(s: State, s': State, t: Task, pc: Pc)
    requires pc.Sweeping? && t in s'.tasks && s'.tasks[t] == pc && s'.instances == s.instances
    ensures Sweeps(s, s', t)
  {
  }

  lemma {:induction false} SweepRuns(states: seq<State>, actions: seq<Action>, j: nat, k: nat, t: Task)
    requires IsRun(states, actions) && j < k < |states| && j < |actions| && Starts(actions[j], t)
    requires forall n | j < n < k :: n < |actions| && !IsReapEnd(actions[n], t)
    ensures Sweeps(states[j], states[k], t)
    decreases k - j
  {
    hide Inv, IsRun, Enabled, Apply, Sweeps, IsReapEnd, Starts;
    RunLength(states, actions);
    if k == j + 1 {
      RunStep(states, actions, j);
      SweepStarts(states[j], actions[j], t);
    } else {
      SweepRuns(states, actions, j, k - 1, t);
      RunStep(states, actions, k - 1);
      SweepStepOn(states[j], states[k - 1], actions[k - 1], t);
    }
  }

  /** When a sweep, on behalf of a tuning reset, of tuning or of `Close`, has ended, every Instance that was
      registered when it began is stopped and `Stop` was called on it. */
  lemma SweepReaches(states: seq<State>, actions: seq<Action>, j: nat, k: nat, t: Task)
    requires IsRun(states, actions) && j < k < |actions| && Starts(actions[j], t) && IsReapEnd(actions[k], t)
    requires forall n | j < n < k :: !IsReapEnd(actions[n], t)
    ensures k + 1 < |states|
    ensures forall m | m in states[j].instances ::
              var i := states[j].instances[m];
              i in states[k + 1].residents && states[k + 1].residents[i].stopped && i in states[k + 1].stopIssued
  {
    hide Inv, IsRun, Sweeps;
    RunLength(states, actions);
    SweepRuns(states, actions, j, k, t);
    RunStep(states, actions, k);
    SweepDone(states[j], states[k], t);
  }

  lemma SweepDone(s0: State, s: State, t: Task)
    requires Sweeps(s0, s, t) && SweepEnabled(s, ReapEnd(t))
    ensures var s' := ApplySweep(s, ReapEnd(t));
            forall m | m in s0.instances ::
              s0.instances[m] in s'.residents && s'.residents[s0.instances[m]].stopped && s0.instances[m] in s'.stopIssued
  {
  }

  // ----- Close

  /** The task is inside `Close`, which began in state `s0` and has given up on no load: every load that
      was in flight then is still to be waited for, or settled. */
  ghost predicate Awaits(s0: State, s: State, t: Task) {
    && t in s.tasks && (s.tasks[t].Sweeping? || s.tasks[t].Reaping?) && s.tasks[t].why.ForClose?
    && (s.tasks[t].Sweeping? ==> s.loading == s0.loading)
    && (s.tasks[t].Reaping? ==> forall m | m in s0.loading :: s0.loading[m] in s.tasks[t].why.inFlight || Ready(s, s0.loading[m]))
  }

  lemma ReadyStays(s: State, a: Action)
    requires Inv(s) && Enabled(s, a)
    ensures forall l | Ready(s, l) :: Ready(Apply(s, a), l)
  {
    ActionOnward(s, a);
    hide Inv, Enabled, Apply;
    forall l | Ready(s, l)
      ensures Ready(Apply(s, a), l)
    {
      assert LoadOnward(s, Apply(s, a), l);
    }
  }

  lemma StillWaits(s0: State, s: State, s': State, t: Task)
    requires Awaits(s0, s, t) && Still(s, s', t) && (t in s.tasks && s.tasks[t].Sweeping? ==> s.mu == Some(t))
    requires forall l | Ready(s, l) :: Ready(s', l)
    ensures Awaits(s0, s', t)
  {
  }

  lemma CloseOn(s0: State, s: State, a: SweepAction)
    requires Awaits(s0, s, a.t) && SweepEnabled(s, a) && (a.SweepOne? || a.SweepEnd? || a.ReapOne? || a.ReapLoad?)
    ensures Awaits(s0, ApplySweep(s, a), a.t)
  {
    hide MarkStopped;
    if a.SweepEnd? {
      assert forall m | m in s0.loading :: s0.loading[m] in s.loading.Values;
    }
  }

  predicate GivesUp(a: Action, t: Task) {
    a.Sweep? && a.sweep.GiveUp? && a.sweep.t == t
  }

  lemma CloseStepOn(s0: State, s: State, a: Action, t: Task)
    requires Inv(s) && Enabled(s, a) && Awaits(s0, s, t) && !IsReapEnd(a, t) && !GivesUp(a, t)
    ensures Awaits(s0, Apply(s, a), t)
  {
    if ActorOf(a) != Some(t) {
      if s.tasks[t].Sweeping? {
        SweepsHolds(s, t);
      }
      ReadyStays(s, a);
      OnlyActorMoves(s, a, t);
      hide Awaits, Still, Inv, Enabled, Apply;
      StillWaits(s0, s, Apply(s, a), t);
    } else {
      SweeperSweeps(s, a, t);
      hide Awaits, Inv, SweepEnabled, ApplySweep;
      CloseOn(s0, s, a.sweep);
    }
  }

  lemma CloseStarts(s: State, t: Task)
    requires Enabled(s, Sweep(StartClose(t)))
    ensures Awaits(s, Apply(s, Sweep(StartClose(t))), t) && Apply(s, Sweep(StartClose(t))).closed
    ensures Apply(s, Sweep(StartClose(t))).loads == s.loads
  {
  }

  lemma {:induction false} CloseRuns(states: seq<State>, actions: seq<Action>, j: nat, k: nat, t: Task)
    requires IsRun(states, actions) && j < k < |states| && j < |actions| && actions[j] == Sweep(StartClose(t))
    requires forall n | j < n < k :: n < |actions| && !IsReapEnd(actions[n], t) && !GivesUp(actions[n], t)
    ensures Awaits(states[j], states[k], t)
    decreases k - j
  {
    hide Inv, IsRun, Enabled, Apply, Awaits, IsReapEnd, GivesUp;
    RunLength(states, actions);
    if k == j + 1 {
      RunStep(states, actions, j);
      CloseStarts(states[j], t);
    } else {
      CloseRuns(states, actions, j, k - 1, t);
      RunStep(states, actions, k - 1);
      CloseStepOn(states[j], states[k - 1], actions[k - 1], t);
    }
  }

  lemma CloseDone(s0: State, s: State, t: Task)
    requires Awaits(s0, s, t) && SweepEnabled(s, ReapEnd(t))
    ensures forall m | m in s0.loading :: Ready(s, s0.loading[m])
  {
  }

  /** When `Close` has ended without giving up on a load, the Supervisor is closed, everything that was
      registered was told to stop, and every load that was in flight has settled without an Instance. */
  lemma CloseReaches(states: seq<State>, actions: seq<Action>, j: nat, k: nat, t: Task)
    requires IsRun(states, actions) && j < k < |actions| && actions[j] == Sweep(StartClose(t)) && IsReapEnd(actions[k], t)
    requires forall n | j < n < k :: !IsReapEnd(actions[n], t) && !GivesUp(actions[n], t)
    ensures k + 1 < |states| && states[k + 1].closed
    ensures forall m | m in states[j].instances ::
              var i := states[j].instances[m];
              i in states[k + 1].residents && states[k + 1].residents[i].stopped && i in states[k + 1].stopIssued
    ensures forall m | m in states[j].loading ::
              Ready(states[k], states[j].loading[m]) && states[k].loads[states[j].loading[m]].inst.None?
  {
    hide Inv, IsRun, Awaits, Enabled, Apply;
    RunLength(states, actions);
    SweepReaches(states, actions, j, k, t);
    CloseRuns(states, actions, j, k, t);
    RunStep(states, actions, j);
    CloseStarts(states[j], t);
    RunStep(states, actions, k);
    CloseEnds(states[j], states[k], t, actions[k]);
    ShutdownIsFinal(states, actions, j + 1, k);
    ShutdownIsFinal(states, actions, j + 1, k + 1);
    forall m | m in states[j].loading
      ensures states[k].loads[states[j].loading[m]].inst.None?
    {
      InFlight(states[j], m);
    }
  }

  lemma CloseEnds(s0: State, s: State, t: Task, a: Action)
    requires Awaits(s0, s, t) && Enabled(s, a) && IsReapEnd(a, t)
    ensures forall m | m in s0.loading :: Ready(s, s0.loading[m])
  {
    CloseDone(s0, s, t);
    hide Awaits;
  }

  lemma InFlight(s: State, m: Model)
    requires Inv(s) && m in s.loading
    ensures s.loading[m] in s.loads && !s.loads[s.loading[m]].ready
  {
    InvRegistry(s);
    hide Inv;
    assert Loads(s, m);
  }

  // ----- Drains

  /** The task is inside a drain of Instance `i` that goes on as `next`. */
  predicate InDrain(pc: Pc, i: Inst, next: Then) {
    pc == Drain(i, next) || pc == DrainAsleep(i, next) || pc == Unregistering(i, next) || pc == Stopping(i, next)
  }

  predicate StoppedNow(s: State, i: Inst) {
    i in s.residents && s.residents[i].stopped
  }

  lemma DrainOn(s: State, a: DrainAction, i: Inst, next: Then)
    requires Inv(s) && DrainsEnabled(s, a) && a.t in s.tasks && InDrain(s.tasks[a.t], i, next)
    ensures var s' := ApplyDrains(s, a); a.t in s'.tasks && (InDrain(s'.tasks[a.t], i, next) || StoppedNow(s', i))
  {
    hide Inv, PcOk, ApplyDrains, StoppedNow;
    if a.DrainStep? {
      DrainStepOns(s, a.t, i, next);
    } else {
      InvPc(s, a.t);
      StoppingStopped(s, a.t);
      EndOn(s, a, i, next);
    }
  }

  lemma DrainStepOns(s: State, t: Task, i: Inst, next: Then)
    requires DrainsEnabled(s, DrainStep(t)) && InDrain(s.tasks[t], i, next)
    ensures var s' := ApplyDrains(s, DrainStep(t)); t in s'.tasks && (InDrain(s'.tasks[t], i, next) || StoppedNow(s', i))
  {
    DrainPassStops(s.residents[i], t, s.tasks[t].Drain?);
    hide DrainPass, DrainDecision, AfterDrain;
  }

  lemma EndOn(s: State, a: DrainAction, i: Inst, next: Then)
    requires DrainsEnabled(s, a) && !a.DrainStep? && InDrain(s.tasks[a.t], i, next) && StoppedNow(s, i)
    ensures var s' := ApplyDrains(s, a); a.t in s'.tasks && (InDrain(s'.tasks[a.t], i, next) || StoppedNow(s', i))
  {
    hide Registered, AfterDrain, IdleCallbackPass;
  }

  lemma StoppingStopped(s: State, t: Task)
    requires t in s.tasks && PcOk(s, t)
    ensures s.tasks[t].Unregistering? || s.tasks[t].Stopping? ==> StoppedNow(s, s.tasks[t].i)
  {
  }

  lemma DrainPassStops(r: Resident, t: Task, entering: bool)
    ensures DrainDecision(r) != MustWait ==> DrainPass(r, t, entering).stopped
  {
  }

  lemma DrainerDrains(s: State, a: Action, t: Task, i: Inst, next: Then)
    requires Enabled(s, a) && ActorOf(a) == Some(t) && t in s.tasks && InDrain(s.tasks[t], i, next)
    ensures a.Drains? && DrainsEnabled(s, a.drain) && a.drain.t == t
  {
    hide Oldest;
  }

  lemma DrainStepOn(s: State, a: Action, t: Task, i: Inst, next: Then)
    requires Inv(s) && Enabled(s, a) && t in s.tasks && (InDrain(s.tasks[t], i, next) || StoppedNow(s, i))
    ensures var s' := Apply(s, a); t in s'.tasks && (InDrain(s'.tasks[t], i, next) || StoppedNow(s', i))
  {
    StopsStay(s, a);
    if ActorOf(a) != Some(t) {
      OnlyActorMoves(s, a, t);
    } else {
      ActorStays(s, a, t);
      if InDrain(s.tasks[t], i, next) {
        DrainerDrains(s, a, t, i, next);
        DrainOn(s, a.drain, i, next);
      }
    }
    hide Inv, Enabled, InDrain, ApplyDrains;
  }

  lemma ActorStays(s: State, a: Action, t: Task)
    requires Inv(s) && Enabled(s, a) && ActorOf(a) == Some(t) && t in s.tasks
    ensures t in Apply(s, a).tasks
  {
    hide Inv, EnvEnabled, RequestEnabled, LoaderEnabled, SweepEnabled, DrainsEnabled, EvictsEnabled;
    hide ApplyRequest, ApplyLoader, ApplySweep, ApplyDrains, ApplyEvicts;
    match a
    case Request(act) => RequestMoves(s, act);
    case Loader(act) => LoaderStays(s, act);
    case Sweep(act) => SweeperStays(s, act);
    case Drains(act) => DrainerStays(s, act);
    case Evicts(act) => EvicterStays(s, act);
  }

  lemma LoaderStays(s: State, a: LoadAction)
    requires LoaderEnabled(s, a) && a.t in s.tasks
    ensures a.t in ApplyLoader(s, a).tasks
  {
    hide Grant, NewResident, MarkEvicted, Registered, Oldest;
  }

  lemma SweeperStays(s: State, a: SweepAction)
    requires SweepEnabled(s, a)
    ensures a.t in ApplySweep(s, a).tasks
  {
    hide MarkStopped;
  }

  lemma DrainerStays(s: State, a: DrainAction)
    requires DrainsEnabled(s, a)
    ensures a.t in ApplyDrains(s, a).tasks
  {
    hide DrainPass, IdleCallbackPass, Registered, DrainDecision, DrainNext;
  }

  lemma EvicterStays(s: State, a: EvictAction)
    requires EvictsEnabled(s, a)
    ensures a.t in ApplyEvicts(s, a).tasks
  {
  }

  /** A drain ends only when its Instance is stopped. */
  lemma {:induction false} DrainEnds(states: seq<State>, actions: seq<Action>, j: nat, k: nat, t: Task, i: Inst, next: Then)
    requires IsRun(states, actions) && j <= k < |states| && t in states[j].tasks && InDrain(states[j].tasks[t], i, next)
    ensures t in states[k].tasks && (InDrain(states[k].tasks[t], i, next) || StoppedNow(states[k], i))
    decreases k - j
  {
    hide Inv, IsRun, Enabled, Apply, InDrain;
    RunLength(states, actions);
    if j < k {
      DrainEnds(states, actions, j, k - 1, t, i, next);
      RunStep(states, actions, k - 1);
      DrainStepOn(states[k - 1], actions[k - 1], t, i, next);
    }
  }

  /** A drain that somebody asked for, be it the cap, is over only when the Instance is stopped, and
      then `Stop` was called, or the process is gone, or some task is about to call it. */
  lemma DrainServes(states: seq<State>, actions: seq<Action>, j: nat, k: nat, t: Task, i: Inst)
    requires IsRun(states, actions) && j < |actions| && j < k < |states|
    requires actions[j] == Env(NewDrain(t, i))
          || (actions[j].Loader? && actions[j].load.EvictOldest? && actions[j].load.drainer == t
              && actions[j].load.victim in states[j].instances && states[j].instances[actions[j].load.victim] == i)
    requires t in states[k].tasks && states[k].tasks[t] == Returned
    ensures StoppedNow(states[k], i) && LeftWell(states[k], i)
  {
    hide Inv, IsRun, LeftWell;
    RunStep(states, actions, j);
    DrainBegins(states[j], actions[j], t, i);
    DrainEnds(states, actions, j + 1, k, t, i, ThenReturn);
    Reachable(states, actions, k);
    BlockedLeftWell(states[k], i);
  }

  lemma DrainBegins(s: State, a: Action, t: Task, i: Inst)
    requires Enabled(s, a)
    requires a == Env(NewDrain(t, i))
          || (a.Loader? && a.load.EvictOldest? && a.load.drainer == t && a.load.victim in s.instances && s.instances[a.load.victim] == i)
    ensures t in Apply(s, a).tasks && Apply(s, a).tasks[t] == Drain(i, ThenReturn)
  {
    hide MarkEvicted, Registered, Oldest;
  }

  /** An idle callback drains exactly if the timer still counts as active and the Instance is not
      stopped; otherwise it does nothing. */
  lemma IdleCallbackDecides(states: seq<State>, actions: seq<Action>, k: nat, t: Task)
    requires IsRun(states, actions) && k < |actions| && actions[k] == Drains(RunIdleCallback(t))
    ensures k + 1 < |states| && t in states[k].tasks && states[k].tasks[t].IdleCallback? && states[k].tasks[t].i in states[k].residents
    ensures var s, s', i := states[k], states[k + 1], states[k].tasks[t].i;
            && t in s'.tasks && i in s'.residents
            && s'.tasks[t] == (if s.residents[i].timerActive && !s.residents[i].stopped then Drain(i, ThenReturn) else Returned)
            && !(s'.residents[i].timerActive && !s'.residents[i].stopped)
            && s'.instances == s.instances && s'.stopIssued == s.stopIssued
  {
    hide Inv, IsRun;
    RunStep(states, actions, k);
    assert DrainsEnabled(states[k], RunIdleCallback(t)) && states[k + 1] == ApplyDrains(states[k], RunIdleCallback(t));
  }

  // ----- Stop

  /** In this step `Stop` is called on nothing, or on a process that its loader never published, or on a
      stopped Instance. */
  predicate StopsRightly(s: State, s': State) {
    forall i | i in s'.stopIssued && i !in s.stopIssued :: i !in s'.residents || StoppedNow(s', i)
  }

  lemma StopStep(s: State, a: Action)
    requires Inv(s) && Enabled(s, a)
    ensures StopsRightly(s, Apply(s, a))
  {
    hide EnvEnabled, RequestEnabled, LoaderEnabled, SweepEnabled, DrainsEnabled, EvictsEnabled, Inv;
    hide ApplyEnv, ApplyRequest, ApplyLoader, ApplySweep, ApplyDrains, ApplyEvicts;
    match a
    case Env(act) => EnvStops(s, act);
    case Request(act) => RequestStops(s, act);
    case Loader(act) => LoaderStops(s, act);
    case Sweep(act) => SweepStops(s, act);
    case Drains(act) => DrainsStops(s, act);
    case Evicts(act) => EvictsStops(s, act);
  }

  lemma EnvStops(s: State, a: EnvAction)
    requires EnvEnabled(s, a)
    ensures StopsRightly(s, ApplyEnv(s, a))
  {
    hide SetTtl, TimerFires, Broadcast;
  }

  lemma RequestStops(s: State, a: RequestAction)
    requires RequestEnabled(s, a)
    ensures StopsRightly(s, ApplyRequest(s, a))
  {
    hide Release, MarkStopped, Registered, VerdictFor, Grant, Sleep;
  }

  lemma LoaderHas(s: State, t: Task)
    requires Inv(s) && t in s.tasks && (s.tasks[t].Probing? || s.tasks[t].Discarding?)
    ensures s.tasks[t].i !in s.residents
  {
    InvPc(s, t);
  }

  lemma LoaderStops(s: State, a: LoadAction)
    requires Inv(s) && LoaderEnabled(s, a)
    ensures StopsRightly(s, ApplyLoader(s, a))
  {
    hide Inv, LoaderEnabled, ApplyLoader;
    if a.StopProbe? || a.Discard? {
      GoneStops(s, a);
    } else if a.EvictOldest? || a.Publish? {
      hide StopsRightly;
      BusyStops(s, a);
    } else {
      hide StopsRightly;
      PlainStops(s, a);
    }
  }

  lemma GoneStops(s: State, a: LoadAction)
    requires Inv(s) && LoaderEnabled(s, a) && (a.StopProbe? || a.Discard?)
    ensures StopsRightly(s, ApplyLoader(s, a))
  {
    hide Inv;
    LoaderHas(s, a.t);
  }

  lemma BusyStops(s: State, a: LoadAction)
    requires LoaderEnabled(s, a) && (a.EvictOldest? || a.Publish?)
    ensures StopsRightly(s, ApplyLoader(s, a))
  {
    hide Grant, NewResident, MarkEvicted, Registered, Oldest;
    assert ApplyLoader(s, a).stopIssued == s.stopIssued;
  }

  lemma PlainStops(s: State, a: LoadAction)
    requires LoaderEnabled(s, a) && !a.StopProbe? && !a.Discard? && !a.EvictOldest? && !a.Publish?
    ensures StopsRightly(s, ApplyLoader(s, a))
  {
    assert ApplyLoader(s, a).stopIssued == s.stopIssued;
  }

  lemma SweeperHas(s: State, t: Task)
    requires Inv(s) && t in s.tasks && s.tasks[t].Reaping?
    ensures forall i | i in s.tasks[t].toStop :: StoppedNow(s, i)
    ensures s.tasks[t].why.ForClose? ==> forall l | l in s.tasks[t].why.inFlight :: l in s.loads && s.loads[l].inst.None?
  {
    InvPc(s, t);
  }

  lemma SweepStops(s: State, a: SweepAction)
    requires Inv(s) && SweepEnabled(s, a)
    ensures StopsRightly(s, ApplySweep(s, a))
  {
    if a.ReapOne? || a.ReapLoad? {
      SweeperHas(s, a.t);
    }
    hide Inv, MarkStopped;
  }

  lemma DrainsStops(s: State, a: DrainAction)
    requires Inv(s) && DrainsEnabled(s, a)
    ensures StopsRightly(s, ApplyDrains(s, a))
  {
    if a.StopDrained? {
      InvPc(s, a.t);
      StoppingStopped(s, a.t);
    }
    hide Inv, PcOk, DrainPass, IdleCallbackPass, Registered, DrainDecision;
  }

  lemma EvictsStops(s: State, a: EvictAction)
    requires EvictsEnabled(s, a)
    ensures StopsRightly(s, ApplyEvicts(s, a))
  {
  }

  /** `Stop` is only ever called on a process that was never published or on a stopped Instance. */
  lemma StopIsRight(states: seq<State>, actions: seq<Action>, k: nat)
    requires IsRun(states, actions) && k < |actions|
    ensures k + 1 < |states| && StopsRightly(states[k], states[k + 1])
  {
    hide Inv, IsRun, Enabled, Apply, StopsRightly;
    RunStep(states, actions, k);
    StopStep(states[k], actions[k]);
  }

  // ----- evictByID

  lemma EvictOn(s: State, a: Action, t: Task, m: Model)
    requires Inv(s) && Enabled(s, a) && t in s.tasks && s.tasks[t] == Evict(m) && a != Evicts(EvictSample(t))
    ensures t in Apply(s, a).tasks && Apply(s, a).tasks[t] == Evict(m)
  {
    if ActorOf(a) == Some(t) {
      NotEvicting(s, a, t, m);
    } else {
      OnlyActorMoves(s, a, t);
      hide Inv, Enabled, Apply;
    }
  }

  lemma NotEvicting(s: State, a: Action, t: Task, m: Model)
    requires Enabled(s, a) && ActorOf(a) == Some(t) && t in s.tasks && s.tasks[t] == Evict(m)
    ensures a == Evicts(EvictSample(t))
  {
    hide Oldest;
  }

  lemma {:induction false} EvictRuns(states: seq<State>, actions: seq<Action>, j: nat, k: nat, t: Task, m: Model)
    requires IsRun(states, actions) && j <= k < |states| && t in states[j].tasks && states[j].tasks[t] == Evict(m)
    ensures || (t in states[k].tasks && states[k].tasks[t] == Evict(m))
            || exists e :: j <= e < k && SamplesAt(states, actions, e, t, m)
    decreases k - j
  {
    hide Inv, IsRun, Enabled, Apply, SamplesAt;
    RunLength(states, actions);
    if j < k {
      EvictRuns(states, actions, j, k - 1, t, m);
      RunStep(states, actions, k - 1);
      if t in states[k - 1].tasks && states[k - 1].tasks[t] == Evict(m) {
        if actions[k - 1] == Evicts(EvictSample(t)) {
          SampledHere(states, actions, k - 1, t, m);
        } else {
          EvictOn(states[k - 1], actions[k - 1], t, m);
        }
      }
    }
  }

  /** At this step the eviction takes its sample. */
  ghost predicate SamplesAt(states: seq<State>, actions: seq<Action>, e: nat, t: Task, m: Model) {
    && e < |actions| && e < |states| && actions[e] == Evicts(EvictSample(t))
    && t in states[e].tasks && states[e].tasks[t] == Evict(m)
  }

  lemma SampledHere(states: seq<State>, actions: seq<Action>, e: nat, t: Task, m: Model)
    requires e < |actions| && e < |states| && actions[e] == Evicts(EvictSample(t))
    requires t in states[e].tasks && states[e].tasks[t] == Evict(m)
    ensures SamplesAt(states, actions, e, t, m)
  {
  }

  lemma SampleLeaves(s: State, a: Action, t: Task)
    requires Inv(s) && Enabled(s, a) && t in s.tasks && SampleOf(s.tasks[t]).Sample?
    requires t in Apply(s, a).tasks && Apply(s, a).tasks[t] == Returned
    ensures t in s.finished
  {
    if ActorOf(a) == Some(t) {
      SampleActor(s, a, t);
      if a.Drains? {
        DrainKeepsSample(s, a.drain);
      } else {
        EvictsKeepSample(s, a.evict);
      }
    } else {
      OnlyActorMoves(s, a, t);
    }
    hide Inv, Enabled, ApplyDrains, ApplyEvicts;
  }

  lemma SampleActor(s: State, a: Action, t: Task)
    requires Enabled(s, a) && ActorOf(a) == Some(t) && t in s.tasks && SampleOf(s.tasks[t]).Sample?
    ensures (a.Drains? && DrainsEnabled(s, a.drain) && a.drain.t == t) || (a.Evicts? && EvictsEnabled(s, a.evict) && a.evict.t == t)
  {
    hide Oldest;
  }

  lemma DrainKeepsSample(s: State, a: DrainAction)
    requires DrainsEnabled(s, a) && a.t in s.tasks && SampleOf(s.tasks[a.t]).Sample?
    ensures a.t in ApplyDrains(s, a).tasks && ApplyDrains(s, a).tasks[a.t] != Returned
  {
    hide DrainPass, Registered, DrainDecision, IdleCallbackPass;
  }

  lemma EvictsKeepSample(s: State, a: EvictAction)
    requires EvictsEnabled(s, a) && a.t in s.tasks && SampleOf(s.tasks[a.t]).Sample?
    ensures a.t in ApplyEvicts(s, a).tasks && (ApplyEvicts(s, a).tasks[a.t] == Returned ==> a.t in s.finished)
  {
  }

  /** A task that has taken a sample and has returned has a finished context. */
  lemma {:induction false} SampleReturns(states: seq<State>, actions: seq<Action>, j: nat, k: nat, t: Task)
    requires IsRun(states, actions) && j <= k < |states| && t in states[j].tasks && SampleOf(states[j].tasks[t]).Sample?
    requires t in states[k].tasks && states[k].tasks[t] == Returned
    ensures t in states[k].finished
    decreases k - j
  {
    hide Inv, IsRun, Enabled, Apply;
    RunLength(states, actions);
    if j < k {
      SampleCarried(states, actions, j, k - 1, t);
      RunStep(states, actions, k - 1);
      WorldStep(states[k - 1], actions[k - 1]);
      if states[k - 1].tasks[t] == Returned {
        SampleReturns(states, actions, j, k - 1, t);
      } else {
        SampleLeaves(states[k - 1], actions[k - 1], t);
      }
    }
  }

  /** Contexts finish, processes start and exit, and the Supervisor closes, by these actions alone. */
  predicate WorldAs(s: State, a: Action, s': State) {
    && s'.finished == s.finished + (if a.Env? && a.env.FinishContext? then {a.env.t} else {})
    && s'.alive == (if a.Env? && a.env.ProcessExits? then s.alive - {a.env.i}
                    else if a.Loader? && a.load.Launch? then s.alive + {a.load.i} else s.alive)
    && (s'.closed <==> s.closed || (a.Sweep? && a.sweep.StartClose?))
    && s'.cap == s.cap
  }

  lemma WorldStep(s: State, a: Action)
    requires Enabled(s, a)
    ensures WorldAs(s, a, Apply(s, a))
  {
    hide WorldAs, EnvEnabled, RequestEnabled, LoaderEnabled, SweepEnabled, DrainsEnabled, EvictsEnabled;
    hide ApplyEnv, ApplyRequest, ApplyLoader, ApplySweep, ApplyDrains, ApplyEvicts;
    match a
    case Env(act) => EnvWorld(s, act);
    case Request(act) => RequestWorld(s, act);
    case Loader(act) => LoaderWorld(s, act);
    case Sweep(act) => SweepWorld(s, act);
    case Drains(act) => DrainsWorld(s, act);
    case Evicts(act) => EvictsWorld(s, act);
  }

  lemma EnvWorld(s: State, a: EnvAction)
    requires EnvEnabled(s, a)
    ensures WorldAs(s, Env(a), ApplyEnv(s, a))
  {
    hide SetTtl, TimerFires, Broadcast;
  }

  lemma RequestWorld(s: State, a: RequestAction)
    requires RequestEnabled(s, a)
    ensures WorldAs(s, Request(a), ApplyRequest(s, a))
  {
    if a.Attempt? {
      AttemptWorld(s, a.t, a.now);
    } else if a.TurnAway? || a.EnterDead? {
      DropWorld(s, a);
    } else {
      hide Release;
    }
  }

  lemma AttemptWorld(s: State, t: Task, now: int)
    requires RequestEnabled(s, Attempt(t, now))
    ensures WorldAs(s, Request(Attempt(t, now)), ApplyRequest(s, Attempt(t, now)))
  {
    hide VerdictFor, Grant, Sleep;
    match VerdictFor(s, t)
    case Refused =>
    case Full =>
    case Granted =>
  }

  lemma DropWorld(s: State, a: RequestAction)
    requires RequestEnabled(s, a) && (a.TurnAway? || a.EnterDead?)
    ensures WorldAs(s, Request(a), ApplyRequest(s, a))
  {
    hide MarkStopped, Registered;
  }

  lemma LoaderWorld(s: State, a: LoadAction)
    requires LoaderEnabled(s, a)
    ensures WorldAs(s, Loader(a), ApplyLoader(s, a))
  {
    hide Grant, NewResident, MarkEvicted, Registered, Oldest;
  }

  lemma SweepWorld(s: State, a: SweepAction)
    requires SweepEnabled(s, a)
    ensures WorldAs(s, Sweep(a), ApplySweep(s, a))
  {
    hide MarkStopped;
  }

  lemma DrainsWorld(s: State, a: DrainAction)
    requires DrainsEnabled(s, a)
    ensures WorldAs(s, Drains(a), ApplyDrains(s, a))
  {
    hide DrainPass, IdleCallbackPass, Registered, DrainDecision, DrainNext;
  }

  lemma EvictsWorld(s: State, a: EvictAction)
    requires EvictsEnabled(s, a)
    ensures WorldAs(s, Evicts(a), ApplyEvicts(s, a))
  {
  }

  lemma EvictionArrives(s: State, t: Task, m: Model)
    requires Enabled(s, Env(NewEviction(t, m)))
    ensures t in Apply(s, Env(NewEviction(t, m))).tasks && Apply(s, Env(NewEviction(t, m))).tasks[t] == Evict(m)
  {
  }

  /** An eviction of a Model that has ended sampled the registry for that Model on the way, and either
      gave up with a finished context or reached what it sampled: the Instance is stopped, the load
      has settled, and whatever that load left admits nobody. */
  lemma EvictionEnds(states: seq<State>, actions: seq<Action>, j: nat, k: nat, t: Task, m: Model) returns (e: nat)
    requires IsRun(states, actions) && j < |actions| && j < k < |states| && actions[j] == Env(NewEviction(t, m))
    requires t in states[k].tasks && (states[k].tasks[t].Evicted? || states[k].tasks[t].Returned?)
    ensures j < e < k && SamplesAt(states, actions, e, t, m)
    ensures states[k].tasks[t].Returned? ==> t in states[k].finished
    ensures states[k].tasks[t].Evicted? ==>
              var s, s' := states[e], states[k];
              && (m in s.instances ==> Blocked(s', s.instances[m]) && s'.residents[s.instances[m]].stopped)
              && (m in s.loading ==> Ready(s', s.loading[m])
                                     && (s'.loads[s.loading[m]].inst.Some? ==> Blocked(s', s'.loads[s.loading[m]].inst.value)))
  {
    hide Inv, IsRun, Enabled, Apply;
    RunLength(states, actions);
    RunStep(states, actions, j);
    EvictionArrives(states[j], t, m);
    EvictRuns(states, actions, j + 1, k, t, m);
    e :| j + 1 <= e < k && SamplesAt(states, actions, e, t, m);
    if states[k].tasks[t].Evicted? {
      EvictionReaches(states, actions, e, k, t);
    } else {
      RunStep(states, actions, e);
      SampleTakenHere(states[e], t);
      SampleReturns(states, actions, e + 1, k, t);
    }
  }

  lemma SampleTakenHere(s: State, t: Task)
    requires Enabled(s, Evicts(EvictSample(t)))
    ensures var s' := Apply(s, Evicts(EvictSample(t))); t in s'.tasks && SampleOf(s'.tasks[t]).Sample?
  {
    SampleTaken(s, t);
    hide SampleOf, DoEvictSample;
  }
}
