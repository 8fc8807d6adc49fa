/** What no action ever takes back. */
module LifecycleMonotone {
  import opened Options
  import opened Residents
  import opened Lifecycle
  import opened LifecycleInvariant
  import opened LifecycleSteps
  import opened LifecycleActions
  import opened LifecycleRequests

  /** Instances: `draining` and `stopped` stay, and a blocked Instance grants nothing more. */
  ghost predicate InstOnward(s: State, s': State, i: Inst)
    requires i in s.residents
  {
    && i in s'.residents && s'.residents[i].model == s.residents[i].model
    && (s.residents[i].draining ==> s'.residents[i].draining)
    && (s.residents[i].stopped ==> s'.residents[i].stopped)
    && (Blocked(s, i) ==> Blocked(s', i) && s'.residents[i].grants <= s.residents[i].grants)
  }

  ghost predicate InstsOnward(s: State, s': State) {
    forall i | i in s.residents :: InstOnward(s, s', i)
  }

  /** Loads: what `ready` announces does not change. */
  predicate LoadOnward(s: State, s': State, l: LoadId)
    requires l in s.loads
  {
    && l in s'.loads && s'.loads[l].model == s.loads[l].model
    && (s.loads[l].ready ==> s'.loads[l].ready && s'.loads[l].inst == s.loads[l].inst)
    && (s.closed && s.loads[l].inst.None? ==> s'.loads[l].inst.None?)
  }

  ghost predicate LoadsOnward(s: State, s': State) {
    && (forall l | l in s.loads :: LoadOnward(s, s', l))
    && (s.closed ==> s'.closed && s'.loads.Keys == s.loads.Keys && s'.residents.Keys == s.residents.Keys)
    && s.drained <= s'.drained && s.stopIssued <= s'.stopIssued
  }

  ghost predicate Onward(s: State, s': State) {
    InstsOnward(s, s') && LoadsOnward(s, s')
  }

  /** The facts of the invariant that these proofs use. */
  ghost predicate Basics(s: State) {
    && s.residents.Keys <= s.owner.Keys
    && (forall t | t in s.tasks && s.tasks[t].Settling? :: !s.closed && s.tasks[t].i !in s.residents)
  }

  lemma InvBasics(s: State)
    requires Inv(s)
    ensures Basics(s)
  {
    forall t | t in s.tasks && s.tasks[t].Settling?
      ensures !s.closed && s.tasks[t].i !in s.residents
    {
      InvPc(s, t);
    }
  }

  lemma SameInsts(s: State, s': State)
    requires s'.residents == s.residents && s'.alive == s.alive
    ensures InstsOnward(s, s')
  {
  }

  lemma OneInst(s: State, s': State, i: Inst, r: Resident)
    requires i in s.residents && s'.residents == s.residents[i := r] && s'.alive == s.alive
    requires r.model == s.residents[i].model
    requires s.residents[i].draining ==> r.draining
    requires s.residents[i].stopped ==> r.stopped
    requires Blocked(s, i) ==> r.grants <= s.residents[i].grants
    ensures InstsOnward(s, s')
  {
  }

  lemma SameLoads(s: State, s': State)
    requires s'.loads == s.loads && s'.closed == s.closed
    requires s.closed ==> s'.residents.Keys == s.residents.Keys
    requires s.drained <= s'.drained && s.stopIssued <= s'.stopIssued
    ensures LoadsOnward(s, s')
  {
  }

  lemma OneLoad(s: State, s': State, l: LoadId, L: Load)
    requires s'.loads == s.loads[l := L] && s'.closed == s.closed
    requires l in s.loads ==>
               && L.model == s.loads[l].model
               && (s.loads[l].ready ==> L.ready && L.inst == s.loads[l].inst)
               && (s.closed && s.loads[l].inst.None? ==> L.inst.None?)
    requires s.closed ==> l in s.loads && s'.residents.Keys == s.residents.Keys
    requires s.drained <= s'.drained && s.stopIssued <= s'.stopIssued
    ensures LoadsOnward(s, s')
  {
  }

  lemma EnvOnward(s: State, a: EnvAction)
    requires Basics(s) && EnvEnabled(s, a)
    ensures InstsOnward(s, ApplyEnv(s, a))
  {
  }

  lemma EnvLoadsOnward(s: State, a: EnvAction)
    requires EnvEnabled(s, a)
    ensures LoadsOnward(s, ApplyEnv(s, a))
  {
  }

  lemma VerdictFree(s: State, t: Task)
    requires Attempting(s, t) && VerdictFor(s, t) == Granted
    ensures !Blocked(s, s.tasks[t].i)
  {
  }

  lemma AttemptOnward(s: State, s': State, t: Task, now: int)
    requires Attempting(s, t) && s' == DoAttempt(s, t, now)
    ensures InstsOnward(s, s') && LoadsOnward(s, s')
  {
    var i := s.tasks[t].i;
    var r := s.residents[i];
    if VerdictFor(s, t) == Granted {
      VerdictFree(s, t);
    }
    hide InstsOnward, LoadsOnward, VerdictFor, Sleep, Grant, Blocked;
    SectionsOnward();
    match VerdictFor(s, t)
    case Refused =>
      SameInsts(s, s');
      SameLoads(s, s');
    case Full => TouchOnward(s, s', i, Sleep(r, t));
    case Granted => TouchOnward(s, s', i, Grant(r, t, now));
  }

  lemma TouchOnward(s: State, s': State, i: Inst, r: Resident)
    requires i in s.residents && s' == Touch(s, i, r).(tasks := s'.tasks)
    requires r.model == s.residents[i].model
    requires s.residents[i].draining ==> r.draining
    requires s.residents[i].stopped ==> r.stopped
    requires Blocked(s, i) ==> r.grants <= s.residents[i].grants
    ensures InstsOnward(s, s') && LoadsOnward(s, s')
  {
    hide InstsOnward, LoadsOnward;
    assert s'.residents.Keys == s.residents.Keys;
    OneInst(s, s', i, r);
    SameLoads(s, s');
  }

  lemma SectionsOnward()
    ensures forall r: Resident, t: Task, now: int ::
              var g := Release(r, t, now);
              g.model == r.model && g.grants <= r.grants && g.draining == r.draining && g.stopped == r.stopped
    ensures forall r: Resident ::
              var g := MarkStopped(r);
              g.model == r.model && g.grants == r.grants && g.draining == r.draining && g.stopped
    ensures forall r: Resident, d: Task ::
              var g := MarkEvicted(r, d);
              g.model == r.model && g.grants == r.grants && g.draining && g.stopped == r.stopped
    ensures forall r: Resident, t: Task ::
              var g := Sleep(r, t);
              g.model == r.model && g.grants == r.grants && g.draining == r.draining && g.stopped == r.stopped
    ensures forall r: Resident, t: Task, now: int ::
              var g := Grant(r, t, now);
              g.model == r.model && g.draining == r.draining && g.stopped == r.stopped
  {
  }

  lemma DropOnward(s: State, i: Inst)
    requires i in s.residents
    ensures var s1 := DropDead(s, i);
            s1.loads == s.loads && s1.closed == s.closed && s1.drained == s.drained && s1.stopIssued == s.stopIssued
  {
    hide MarkStopped;
  }

  lemma BeginOnward(s: State, s1: State, s': State, t: Task, l: LoadId)
    requires !s.closed && l !in s.loads && t in s.tasks && s.tasks[t].Retry?
    requires s1.loads == s.loads && s1.closed == s.closed && s1.drained == s.drained && s1.stopIssued == s.stopIssued
    requires s' == BeginLoad(s1, t, s.tasks[t].m, l)
    ensures LoadsOnward(s, s')
  {
    hide LoadsOnward;
    OneLoad(s, s', l, s'.loads[l]);
  }

  lemma AttemptsOnward(s: State, t: Task, now: int)
    requires RequestEnabled(s, Attempt(t, now))
    ensures Onward(s, ApplyRequest(s, Attempt(t, now)))
  {
    hide InstsOnward, LoadsOnward, DoAttempt;
    AttemptOnward(s, ApplyRequest(s, Attempt(t, now)), t, now);
  }

  lemma ReleaseOnward(s: State, t: Task, now: int)
    requires RequestEnabled(s, ReleaseSlot(t, now))
    ensures Onward(s, ApplyRequest(s, ReleaseSlot(t, now)))
  {
    var i := s.tasks[t].i;
    hide InstsOnward, LoadsOnward, Release;
    SectionsOnward();
    TouchOnward(s, ApplyRequest(s, ReleaseSlot(t, now)), i, Release(s.residents[i], t, now));
  }

  lemma EnterDeadOnward(s: State, t: Task, l: LoadId)
    requires RequestEnabled(s, EnterDead(t, l))
    ensures Onward(s, ApplyRequest(s, EnterDead(t, l)))
  {
    var i := s.instances[s.tasks[t].m];
    var s' := ApplyRequest(s, EnterDead(t, l));
    hide InstsOnward, LoadsOnward, MarkStopped;
    SectionsOnward();
    DropOnward(s, i);
    OneInst(s, s', i, MarkStopped(s.residents[i]));
    hide DropDead;
    BeginOnward(s, DropDead(s, i), s', t, l);
  }

  /** The requests that join, start or leave a load. */
  lemma LoadRequestOnward(s: State, a: RequestAction)
    requires RequestEnabled(s, a) && (a.EnterJoin? || a.EnterLoad? || a.CallerDeparts?)
    ensures Onward(s, ApplyRequest(s, a))
  {
    hide InstsOnward, LoadsOnward;
    var s' := ApplyRequest(s, a);
    SameInsts(s, s');
    match a
    case EnterJoin(t) => OneLoad(s, s', s.loading[s.tasks[t].m], s'.loads[s.loading[s.tasks[t].m]]);
    case EnterLoad(t, l) => BeginOnward(s, s, s', t, l);
    case CallerDeparts(t, l) => OneLoad(s, s', l, s'.loads[l]);
  }

  /** The requests that only move on. */
  lemma QuietRequestOnward(s: State, a: RequestAction)
    requires RequestEnabled(s, a)
    requires a.EnterClosed? || a.EnterResident? || a.FollowReady? || a.FollowLeave? || a.LeaveSlotless?
    ensures Onward(s, ApplyRequest(s, a))
  {
    hide Onward;
    var s' := ApplyRequest(s, a);
    MovedOnward(s, s', a.t, s'.tasks[a.t]);
  }

  lemma MovedOnward(s: State, s': State, t: Task, pc: Pc)
    requires s' == Goto(s, t, pc)
    ensures Onward(s, s')
  {
    hide InstsOnward, LoadsOnward;
    SameInsts(s, s');
    SameLoads(s, s');
  }

  lemma ForgottenOnward(s: State, s': State, i: Inst, t: Task, pc: Pc)
    requires i in s.residents && s' == Goto(Forget(s, i), t, pc)
    ensures Onward(s, s')
  {
    hide InstsOnward, LoadsOnward;
    SameInsts(s, s');
    SameLoads(s, s');
  }

  lemma TurnAwayOnward(s: State, t: Task)
    requires RequestEnabled(s, TurnAway(t))
    ensures Onward(s, ApplyRequest(s, TurnAway(t)))
  {
    hide Onward, Forget;
    var s' := ApplyRequest(s, TurnAway(t));
    if t in s.finished || s.tasks[t].follower {
      MovedOnward(s, s', t, s'.tasks[t]);
    } else {
      ForgottenOnward(s, s', s.tasks[t].i, t, s'.tasks[t]);
    }
  }

  lemma RequestOnward(s: State, a: RequestAction)
    requires RequestEnabled(s, a)
    ensures Onward(s, ApplyRequest(s, a))
  {
    hide Onward, RequestEnabled, ApplyRequest;
    match a
    case Attempt(t, now) => AttemptsOnward(s, t, now);
    case ReleaseSlot(t, now) => ReleaseOnward(s, t, now);
    case EnterDead(t, l) => EnterDeadOnward(s, t, l);
    case EnterJoin(_) => LoadRequestOnward(s, a);
    case EnterLoad(_, _) => LoadRequestOnward(s, a);
    case CallerDeparts(_, _) => LoadRequestOnward(s, a);
    case TurnAway(t) => TurnAwayOnward(s, t);
    case _ => QuietRequestOnward(s, a);
  }

  lemma PublishOnward(s: State, s': State, t: Task, ttl: int, slots: int, now: int)
    requires Basics(s) && LoaderEnabled(s, Publish(t, ttl, slots, now)) && s' == ApplyLoader(s, Publish(t, ttl, slots, now))
    requires !s.loads[s.tasks[t].l].ready
    ensures InstsOnward(s, s') && LoadsOnward(s, s')
  {
    var l := s.tasks[t].l;
    hide LoadsOnward, Grant, NewResident;
    assert !s.closed && s.tasks[t].i !in s.residents;
    OneLoad(s, s', l, s'.loads[l]);
  }

  lemma EvictingOnward(s: State, s': State, t: Task, victim: Model, d: Task)
    requires LoaderEnabled(s, EvictOldest(t, victim, d)) && s' == ApplyLoader(s, EvictOldest(t, victim, d))
    ensures InstsOnward(s, s') && LoadsOnward(s, s')
  {
    var i := s.instances[victim];
    hide InstsOnward, LoadsOnward, MarkEvicted;
    SectionsOnward();
    OneInst(s, s', i, MarkEvicted(s.residents[i], d));
    SameLoads(s, s');
  }

  lemma LaunchOnward(s: State, s': State, t: Task, i: Inst)
    requires s.residents.Keys <= s.owner.Keys && i !in s.owner && t in s.tasks && s.tasks[t].Launching?
    requires s' == Goto(s, t, Probing(s.tasks[t].m, s.tasks[t].l, i)).(owner := s.owner[i := t], alive := s.alive + {i})
    ensures InstsOnward(s, s')
  {
  }

  /** No load is settled twice. */
  ghost predicate Unsettled(s: State) {
    forall t | t in s.tasks && (s.tasks[t].Launching? || s.tasks[t].Probing? || s.tasks[t].Settling?) ::
      s.tasks[t].l in s.loads && !s.loads[s.tasks[t].l].ready && s.loads[s.tasks[t].l].inst.None?
  }

  lemma InvUnsettled(s: State)
    requires Inv(s)
    ensures Unsettled(s)
  {
    forall t | t in s.tasks && (s.tasks[t].Launching? || s.tasks[t].Probing? || s.tasks[t].Settling?)
      ensures s.tasks[t].l in s.loads && !s.loads[s.tasks[t].l].ready && s.loads[s.tasks[t].l].inst.None?
    {
      LoaderUnsettled(s, t);
    }
  }

  lemma LoaderUnsettled(s: State, t: Task)
    requires Inv(s) && t in s.tasks && (s.tasks[t].Launching? || s.tasks[t].Probing? || s.tasks[t].Settling?)
    ensures s.tasks[t].l in s.loads && !s.loads[s.tasks[t].l].ready && s.loads[s.tasks[t].l].inst.None?
  {
    InvPc(s, t);
    InvLoad(s, s.tasks[t].l);
  }

  lemma LoaderOnward(s: State, a: LoadAction)
    requires Basics(s) && Unsettled(s) && LoaderEnabled(s, a)
    ensures InstsOnward(s, ApplyLoader(s, a))
  {
    hide InstsOnward, LoadsOnward, EvictVictim, Grant;
    var s' := ApplyLoader(s, a);
    match a
    case Launch(t, i) => LaunchOnward(s, s', t, i);
    case EvictOldest(t, victim, d) => EvictingOnward(s, s', t, victim, d);
    case Publish(t, ttl, slots, now) => PublishOnward(s, s', t, ttl, slots, now);
    case _ => SameInsts(s, s');
  }

  lemma LoaderLoadsOnward(s: State, a: LoadAction)
    requires Basics(s) && Unsettled(s) && LoaderEnabled(s, a)
    ensures LoadsOnward(s, ApplyLoader(s, a))
  {
    hide InstsOnward, LoadsOnward, EvictVictim, Grant;
    var s' := ApplyLoader(s, a);
    match a
    case EvictOldest(t, victim, d) => EvictingOnward(s, s', t, victim, d);
    case Publish(t, ttl, slots, now) => PublishOnward(s, s', t, ttl, slots, now);
    case SettleError(t) => OneLoad(s, s', s.tasks[t].l, s'.loads[s.tasks[t].l]);
    case SettleClosed(t) => OneLoad(s, s', s.tasks[t].l, s'.loads[s.tasks[t].l]);
    case Reject(t) => OneLoad(s, s', s.tasks[t].l, s'.loads[s.tasks[t].l]);
    case _ => SameLoads(s, s');
  }

  lemma SweepOnward(s: State, a: SweepAction)
    requires Basics(s) && SweepEnabled(s, a)
    ensures InstsOnward(s, ApplySweep(s, a))
  {
  }

  lemma SweepLoadsOnward(s: State, a: SweepAction)
    requires SweepEnabled(s, a)
    ensures LoadsOnward(s, ApplySweep(s, a))
  {
  }

  lemma DrainsOnward(s: State, a: DrainAction)
    requires DrainsEnabled(s, a)
    ensures InstsOnward(s, ApplyDrains(s, a)) && LoadsOnward(s, ApplyDrains(s, a))
  {
    hide InstsOnward, LoadsOnward;
    var s' := ApplyDrains(s, a);
    match a
    case RunIdleCallback(t) =>
      OneInst(s, s', s.tasks[t].i, IdleCallbackPass(s.residents[s.tasks[t].i], t));
      SameLoads(s, s');
    case DrainStep(t) => DrainOnward(s, s', t);
    case _ =>
      SameInsts(s, s');
      SameLoads(s, s');
  }

  lemma DrainOnward(s: State, s': State, t: Task)
    requires DrainReady(s, t) && s' == DoDrain(s, t)
    ensures InstsOnward(s, s') && LoadsOnward(s, s')
  {
    var i := s.tasks[t].i;
    hide InstsOnward, LoadsOnward, DrainPass, DrainDecision, DrainNext;
    DrainPassOnward(s.residents[i], t, s.tasks[t].Drain?);
    TouchOnward(s, s', i, DrainPass(s.residents[i], t, s.tasks[t].Drain?));
  }

  lemma DrainPassOnward(r: Resident, t: Task, entering: bool)
    ensures var g := DrainPass(r, t, entering);
            g.model == r.model && g.grants == r.grants && (r.draining ==> g.draining) && (r.stopped ==> g.stopped)
  {
  }

  lemma SamplesOnward(s: State, t: Task)
    requires EvictsEnabled(s, EvictSample(t))
    ensures Onward(s, ApplyEvicts(s, EvictSample(t)))
  {
    hide InstsOnward, LoadsOnward;
    var s', m := ApplyEvicts(s, EvictSample(t)), s.tasks[t].m;
    SameInsts(s, s');
    if m in s.loading {
      OneLoad(s, s', s.loading[m], s'.loads[s.loading[m]]);
    } else {
      SameLoads(s, s');
    }
  }

  lemma EvictsOnward(s: State, a: EvictAction)
    requires EvictsEnabled(s, a)
    ensures Onward(s, ApplyEvicts(s, a))
  {
    hide Onward, DoEvictSample;
    if a.EvictSample? {
      SamplesOnward(s, a.t);
    } else {
      var s' := ApplyEvicts(s, a);
      MovedOnward(s, s', a.t, s'.tasks[a.t]);
    }
  }

  /** No action takes anything back. */
  lemma ActionOnward(s: State, a: Action)
    requires Inv(s) && Enabled(s, a)
    ensures Onward(s, Apply(s, a))
  {
    InvBasics(s);
    InvUnsettled(s);
    hide Inv, Basics, Unsettled, InstsOnward, LoadsOnward, EnvEnabled, RequestEnabled, LoaderEnabled, SweepEnabled, DrainsEnabled, EvictsEnabled;
    hide ApplyEnv, ApplyRequest, ApplyLoader, ApplySweep, ApplyDrains, ApplyEvicts;
    match a
    case Env(act) => EnvOnward(s, act); EnvLoadsOnward(s, act);
    case Request(act) => RequestOnward(s, act);
    case Loader(act) => LoaderOnward(s, act); LoaderLoadsOnward(s, act);
    case Sweep(act) => SweepOnward(s, act); SweepLoadsOnward(s, act);
    case Drains(act) => DrainsOnward(s, act);
    case Evicts(act) => EvictsOnward(s, act);
  }
}
