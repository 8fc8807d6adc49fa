/** Evictions reach what they sampled, and nobody sleeps on an Instance for good. */
module LifecycleProgress {
  import opened Options
  import opened Residents
  import opened Lifecycle
  import opened LifecycleInvariant
  import opened LifecycleSteps
  import opened LifecycleActions
  import opened LifecycleRequests
  import opened LifecycleInduction
  import opened LifecycleMonotone
  import opened LifecycleTheorems

  // ----- evictByID

  /** What an eviction sampled in its first section, as it carries it along. */
  datatype Sample = NoSample | Sample(m: Model, inst: Option<Inst>, load: Option<LoadId>)

  function ThenSample(next: Then): Sample {
    match next
    case ThenReturn => NoSample
    case ThenAwait(m, first, load) => Sample(m, Some(first), load)
    case ThenEvicted(m, sampled, awaited) => Sample(m, sampled, Some(awaited))
  }

  function SampleOf(pc: Pc): Sample {
    match pc
    case Drain(_, next) => ThenSample(next)
    case DrainAsleep(_, next) => ThenSample(next)
    case Unregistering(_, next) => ThenSample(next)
    case Stopping(_, next) => ThenSample(next)
    case Awaiting(m, sampled, load) => Sample(m, sampled, load)
    case Evicted(m, sampled, load) => Sample(m, sampled, load)
    case _ => NoSample
  }

  /** A task that carries a sample keeps it or returns, and a returned task stays returned. */
  ghost predicate SampleKept(s: State, s': State, t: Task) {
    && (t in s.tasks && SampleOf(s.tasks[t]).Sample? ==>
          t in s'.tasks && (s'.tasks[t] == Returned || SampleOf(s'.tasks[t]) == SampleOf(s.tasks[t])))
    && (t in s.tasks && s.tasks[t] == Returned ==> t in s'.tasks && s'.tasks[t] == Returned)
  }

  lemma EnvSample(s: State, a: EnvAction, t: Task)
    requires EnvEnabled(s, a)
    ensures SampleKept(s, ApplyEnv(s, a), t)
  {
    hide SetTtl, TimerFires;
  }

  /** The task that an action of a request or a loader moves, and where it stood. */
  lemma RequestActor(s: State, a: RequestAction)
    requires RequestEnabled(s, a) && !a.CallerDeparts?
    ensures a.t in s.tasks && s.tasks[a.t] != Returned && SampleOf(s.tasks[a.t]) == NoSample
  {
  }

  lemma LoaderActor(s: State, a: LoadAction)
    requires LoaderEnabled(s, a)
    ensures a.t in s.tasks && s.tasks[a.t] != Returned && SampleOf(s.tasks[a.t]) == NoSample
  {
  }

  /** An action moves one task, and may start another. */
  ghost predicate OthersStay(s: State, s': State, u: Task) {
    forall t | t in s.tasks && t != u :: t in s'.tasks && s'.tasks[t] == s.tasks[t]
  }

  /** What the registry lock protects stays as it is. */
  ghost predicate RegistrySame(s: State, s': State) {
    s'.mu == s.mu && s'.instances == s.instances && s'.loading == s.loading && s'.closed == s.closed
  }

  /** A request moves its own task, to no scan, and touches nothing that another task locked. */
  ghost predicate MovesOn(s: State, s': State, t: Task) {
    && t in s.tasks && t in s'.tasks && s'.tasks == s.tasks[t := s'.tasks[t]] && !s'.tasks[t].Scanning?
    && (s.mu.Some? ==> RegistrySame(s, s'))
  }

  lemma AttemptMoves(s: State, t: Task, now: int)
    requires RequestEnabled(s, Attempt(t, now))
    ensures MovesOn(s, ApplyRequest(s, Attempt(t, now)), t)
  {
    hide Grant, Sleep, VerdictFor;
    match VerdictFor(s, t)
    case Refused =>
    case Full =>
    case Granted =>
  }

  lemma ReleaseMoves(s: State, t: Task, now: int)
    requires RequestEnabled(s, ReleaseSlot(t, now))
    ensures MovesOn(s, ApplyRequest(s, ReleaseSlot(t, now)), t)
  {
    hide Release;
  }

  lemma TurnAwayMoves(s: State, t: Task)
    requires RequestEnabled(s, TurnAway(t))
    ensures MovesOn(s, ApplyRequest(s, TurnAway(t)), t)
  {
    hide Registered;
  }

  lemma EnterDeadMoves(s: State, t: Task, l: LoadId)
    requires RequestEnabled(s, EnterDead(t, l))
    ensures MovesOn(s, ApplyRequest(s, EnterDead(t, l)), t)
  {
    hide MarkStopped, Registered;
  }

  lemma PlainMoves(s: State, a: RequestAction)
    requires RequestEnabled(s, a)
    requires !a.Attempt? && !a.ReleaseSlot? && !a.TurnAway? && !a.EnterDead? && !a.CallerDeparts?
    ensures MovesOn(s, ApplyRequest(s, a), a.t)
  {
  }

  lemma RequestMoves(s: State, a: RequestAction)
    requires RequestEnabled(s, a)
    ensures if a.CallerDeparts? then ApplyRequest(s, a).tasks == s.tasks && RegistrySame(s, ApplyRequest(s, a))
            else MovesOn(s, ApplyRequest(s, a), a.t)
  {
    if !a.CallerDeparts? {
      hide MovesOn, RequestEnabled, ApplyRequest;
      match a
      case Attempt(t, now) => AttemptMoves(s, t, now);
      case ReleaseSlot(t, now) => ReleaseMoves(s, t, now);
      case TurnAway(t) => TurnAwayMoves(s, t);
      case EnterDead(t, l) => EnterDeadMoves(s, t, l);
      case _ => PlainMoves(s, a);
    } else {
      DepartMoves(s, a.t, a.l);
      hide MovesOn, RequestEnabled, ApplyRequest;
    }
  }

  lemma DepartMoves(s: State, t: Task, l: LoadId)
    requires RequestEnabled(s, CallerDeparts(t, l))
    ensures ApplyRequest(s, CallerDeparts(t, l)).tasks == s.tasks && RegistrySame(s, ApplyRequest(s, CallerDeparts(t, l)))
  {
  }

  lemma LoaderOthers(s: State, a: LoadAction)
    requires LoaderEnabled(s, a)
    ensures OthersStay(s, ApplyLoader(s, a), a.t)
  {
    hide Grant, MarkEvicted, NewResident, Registered, Oldest;
  }

  lemma StaySample(s: State, s': State, u: Task, t: Task)
    requires OthersStay(s, s', u) && (u in s.tasks && s.tasks[u] != Returned && SampleOf(s.tasks[u]) == NoSample)
    ensures SampleKept(s, s', t)
  {
  }

  lemma RequestSample(s: State, a: RequestAction, t: Task)
    requires RequestEnabled(s, a)
    ensures SampleKept(s, ApplyRequest(s, a), t)
  {
    hide SampleOf, RequestEnabled, ApplyRequest;
    RequestMoves(s, a);
    if !a.CallerDeparts? {
      RequestActor(s, a);
      StaySample(s, ApplyRequest(s, a), a.t, t);
    }
  }

  lemma LoaderSample(s: State, a: LoadAction, t: Task)
    requires LoaderEnabled(s, a)
    ensures SampleKept(s, ApplyLoader(s, a), t)
  {
    hide OthersStay, SampleOf, LoaderEnabled, ApplyLoader;
    LoaderOthers(s, a);
    LoaderActor(s, a);
    StaySample(s, ApplyLoader(s, a), a.t, t);
  }

  lemma SweepSample(s: State, a: SweepAction, t: Task)
    requires SweepEnabled(s, a)
    ensures SampleKept(s, ApplySweep(s, a), t)
  {
    hide MarkStopped;
  }

  lemma MoveSample(s: State, s': State, u: Task, pc: Pc, t: Task)
    requires u in s.tasks && s'.tasks == s.tasks[u := pc] && s.tasks[u] != Returned
    requires pc == Returned || SampleOf(pc) == SampleOf(s.tasks[u])
    ensures SampleKept(s, s', t)
  {
  }

  lemma DrainStepSample(s: State, s': State, u: Task, t: Task)
    requires DrainReady(s, u) && s' == DoDrain(s, u)
    ensures SampleKept(s, s', t)
  {
    hide DrainPass, SampleKept, DrainNext, DrainDecision;
    var pc := s.tasks[u];
    var v := DrainDecision(s.residents[pc.i]);
    DrainNextSample(v, pc.i, pc.next);
    MoveSample(s, s', u, DrainNext(v, pc.i, pc.next), t);
  }

  lemma DrainNextSample(v: DrainVerdict, i: Inst, next: Then)
    ensures DrainNext(v, i, next) == Returned || SampleOf(DrainNext(v, i, next)) == ThenSample(next)
  {
  }

  lemma DrainSample(s: State, a: DrainAction, t: Task)
    requires DrainsEnabled(s, a)
    ensures SampleKept(s, ApplyDrains(s, a), t)
  {
    hide DoDrain, DrainPass, IdleCallbackPass, Registered, IdleCallbackActs;
    if a.DrainStep? {
      DrainStepSample(s, ApplyDrains(s, a), a.t, t);
    }
  }

  lemma EvictSampleKept(s: State, a: EvictAction, t: Task)
    requires EvictsEnabled(s, a)
    ensures SampleKept(s, ApplyEvicts(s, a), t)
  {
  }

  lemma ActionSample(s: State, a: Action, t: Task)
    requires Enabled(s, a)
    ensures SampleKept(s, Apply(s, a), t)
  {
    hide SampleKept, EnvEnabled, RequestEnabled, LoaderEnabled, SweepEnabled, DrainsEnabled, EvictsEnabled;
    hide ApplyEnv, ApplyRequest, ApplyLoader, ApplySweep, ApplyDrains, ApplyEvicts;
    match a
    case Env(act) => EnvSample(s, act, t);
    case Request(act) => RequestSample(s, act, t);
    case Loader(act) => LoaderSample(s, act, t);
    case Sweep(act) => SweepSample(s, act, t);
    case Drains(act) => DrainSample(s, act, t);
    case Evicts(act) => EvictSampleKept(s, act, t);
  }

  lemma {:induction false} SampleCarried(states: seq<State>, actions: seq<Action>, j: nat, k: nat, t: Task)
    requires IsRun(states, actions) && j <= k < |states|
    requires t in states[j].tasks && SampleOf(states[j].tasks[t]).Sample?
    ensures t in states[k].tasks
    ensures states[k].tasks[t] == Returned || SampleOf(states[k].tasks[t]) == SampleOf(states[j].tasks[t])
    decreases k - j
  {
    hide Inv, Apply, Enabled, Init;
    if j < k {
      SampleCarried(states, actions, j, k - 1, t);
      ActionSample(states[k - 1], actions[k - 1], t);
    }
  }

  lemma SampleTaken(s: State, t: Task)
    requires EvictsEnabled(s, EvictSample(t))
    ensures var s', m := DoEvictSample(s, t), s.tasks[t].m;
            && t in s'.tasks
            && SampleOf(s'.tasks[t]) == Sample(m, if m in s.instances then Some(s.instances[m]) else None,
                                               if m in s.loading then Some(s.loading[m]) else None)
  {
  }

  lemma EvictedFacts(s: State, t: Task)
    requires Inv(s) && t in s.tasks && s.tasks[t].Evicted?
    ensures var pc := s.tasks[t];
            && (pc.sampled.Some? ==> Blocked(s, pc.sampled.value) && s.residents[pc.sampled.value].stopped)
            && (pc.load.Some? ==> Ready(s, pc.load.value)
                                  && (s.loads[pc.load.value].inst.Some? ==> Blocked(s, s.loads[pc.load.value].inst.value)))
  {
    InvPc(s, t);
  }

  /** When `evictByID` has returned without giving up on its context, the Instance that was
      resident when it sampled the registry is stopped, the load that was in flight then has
      settled, and whatever Instance that load left admits nobody any more. */
  lemma EvictionReaches(states: seq<State>, actions: seq<Action>, j: nat, k: nat, t: Task)
    requires IsRun(states, actions) && j < |actions| && j < k < |states|
    requires actions[j] == Evicts(EvictSample(t)) && t in states[k].tasks && states[k].tasks[t].Evicted?
    ensures t in states[j].tasks && states[j].tasks[t].Evict?
    ensures var s, s', m := states[j], states[k], states[j].tasks[t].m;
            && (m in s.instances ==> Blocked(s', s.instances[m]) && s'.residents[s.instances[m]].stopped)
            && (m in s.loading ==> Ready(s', s.loading[m])
                                   && (s'.loads[s.loading[m]].inst.Some? ==> Blocked(s', s'.loads[s.loading[m]].inst.value)))
  {
    assert EvictsEnabled(states[j], EvictSample(t));
    assert states[j + 1] == DoEvictSample(states[j], t);
    SampleTaken(states[j], t);
    SampleCarried(states, actions, j + 1, k, t);
    Reachable(states, actions, k);
    EvictedFacts(states[k], t);
  }

  // ----- Nobody sleeps for good

  /** The state after a sequence of actions, each enabled in turn. */
  ghost predicate Leads(s: State, actions: seq<Action>, s': State)
    decreases |actions|
  {
    if actions == [] then s == s'
    else Enabled(s, actions[0]) && Leads(Apply(s, actions[0]), actions[1..], s')
  }

  lemma ReleaseShrinks(s: State, s': State, u: Task, i: Inst, now: int)
    requires i in s.residents && RequestEnabled(s, ReleaseSlot(u, now)) && s.tasks[u] == Serving(i)
    requires s' == ApplyRequest(s, ReleaseSlot(u, now))
    ensures i in s'.residents && s'.residents[i].grants == s.residents[i].grants - {u}
    ensures s'.residents[i].maxSlots == s.residents[i].maxSlots && s'.residents[i].waiters == {}
    ensures forall t | t in s.tasks && t != u :: t in s'.tasks && s'.tasks[t] == s.tasks[t]
  {
  }

  /** One holder of `i` gives its slot back. */
  lemma ReleaseStep(s: State, i: Inst) returns (a: Action, s': State)
    requires Inv(s) && i in s.residents && s.residents[i].grants != {}
    ensures Enabled(s, a) && s' == Apply(s, a) && Inv(s')
    ensures a.Request? && a.request.ReleaseSlot? && a.request.t in s.residents[i].grants
    ensures i in s'.residents && s'.residents[i].grants == s.residents[i].grants - {a.request.t}
    ensures s'.residents[i].maxSlots == s.residents[i].maxSlots && s'.residents[i].waiters == {}
    ensures forall t | t in s.tasks && s.tasks[t] != Serving(i) :: t in s'.tasks && s'.tasks[t] == s.tasks[t]
  {
    var u :| u in s.residents[i].grants;
    InvInst(s, i);
    hide Inv, ApplyRequest, RequestEnabled;
    assert s.tasks[u] == Serving(i);
    HolderReleases(s, u, i);
    a := Request(ReleaseSlot(u, 0));
    s' := Apply(s, a);
    ActionKeeps(s, a);
    ReleaseShrinks(s, s', u, i, 0);
  }

  lemma DrainDecides(s: State, t: Task)
    requires Inv(s) && t in s.tasks && s.tasks[t].DrainAsleep?
    requires s.tasks[t].i in s.residents && s.residents[s.tasks[t].i].grants == {}
    ensures Enabled(s, Drains(DrainStep(t)))
    ensures var s' := Apply(s, Drains(DrainStep(t)));
            t in s'.tasks && (s'.tasks[t] == Unregistering(s.tasks[t].i, s.tasks[t].next)
                              || s'.tasks[t] == AfterDrain(s.tasks[t].next))
  {
    hide Inv, DrainPass, AfterDrain;
    ResidentIsOk(s, s.tasks[t].i);
    NoneAsleep(s.residents[s.tasks[t].i]);
    hide ResidentOk;
  }

  lemma NoneAsleep(r: Resident)
    requires ResidentOk(r) && r.grants == {}
    ensures r.active == 0 && r.drainers == {}
  {
  }

  /** The drain of task `t` at `pc` has come to its decision. */
  predicate Decided(s: State, t: Task, pc: Pc)
    requires pc.DrainAsleep?
  {
    t in s.tasks && (s.tasks[t] == Unregistering(pc.i, pc.next) || s.tasks[t] == AfterDrain(pc.next))
  }

  lemma LeadsOne(s: State, a: Action)
    requires Enabled(s, a)
    ensures Leads(s, [a], Apply(s, a))
  {
    assert [a][1..] == [];
  }

  lemma LeadsCons(s: State, a: Action, rest: seq<Action>, s': State)
    requires Enabled(s, a) && Leads(Apply(s, a), rest, s')
    ensures Leads(s, [a] + rest, s')
  {
    assert ([a] + rest)[1..] == rest;
  }

  /** A drain waits for the holders of its Instance and for nothing else: if they release,
      one after the other, it comes to its decision. */
  lemma {:induction false} DrainCanFinish(s: State, t: Task) returns (actions: seq<Action>, s': State)
    requires Inv(s) && t in s.tasks && s.tasks[t].DrainAsleep? && s.tasks[t].i in s.residents
    ensures Leads(s, actions, s') && |actions| == |s.residents[s.tasks[t].i].grants| + 1
    ensures forall n | 0 <= n < |actions| - 1 :: actions[n].Request? && actions[n].request.ReleaseSlot?
                                                && actions[n].request.t in s.residents[s.tasks[t].i].grants
    ensures actions[|actions| - 1] == Drains(DrainStep(t))
    ensures Decided(s', t, s.tasks[t])
    decreases |s.residents[s.tasks[t].i].grants|
  {
    hide Inv, Apply, Enabled, Leads;
    var i := s.tasks[t].i;
    if s.residents[i].grants == {} {
      DrainDecides(s, t);
      LeadsOne(s, Drains(DrainStep(t)));
      actions, s' := [Drains(DrainStep(t))], Apply(s, Drains(DrainStep(t)));
    } else {
      var a, s1 := ReleaseStep(s, i);
      var rest;
      rest, s' := DrainCanFinish(s1, t);
      LeadsCons(s, a, rest, s');
      actions := [a] + rest;
    }
  }

  /** A request asleep in `acquire` is refused or served as soon as one slot comes back. */
  lemma SleeperCanFinish(s: State, t: Task) returns (a: Action, s1: State)
    requires Inv(s) && t in s.tasks && s.tasks[t].Asleep? && s.tasks[t].i in s.residents
    requires t in s.residents[s.tasks[t].i].waiters
    ensures Enabled(s, a) && s1 == Apply(s, a) && a.Request? && a.request.ReleaseSlot?
    ensures Attempting(s1, t) && VerdictFor(s1, t) != Full
  {
    hide Inv, Apply, Enabled;
    var i := s.tasks[t].i;
    HolderExists(s, i, t);
    a, s1 := ReleaseStep(s, i);
    RoomAfter(s, s1, i, a.request.t);
  }

  lemma HolderExists(s: State, i: Inst, t: Task)
    requires Inv(s) && i in s.residents && t in s.residents[i].waiters
    ensures s.residents[i].grants != {} && s.residents[i].active >= s.residents[i].maxSlots
  {
    InvInst(s, i);
  }

  lemma RoomAfter(s: State, s1: State, i: Inst, u: Task)
    requires Inv(s) && Inv(s1) && i in s.residents && i in s1.residents && u in s.residents[i].grants
    requires s1.residents[i].grants == s.residents[i].grants - {u} && s1.residents[i].maxSlots == s.residents[i].maxSlots
    ensures s1.residents[i].active < s1.residents[i].maxSlots
  {
    hide Inv;
    ResidentIsOk(s, i);
    ResidentIsOk(s1, i);
  }
}
