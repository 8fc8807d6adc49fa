/** An action moves one task, and leaves what another task has locked. */
module LifecycleFrames {
  import opened Options
  import opened Residents
  import opened Lifecycle
  import opened LifecycleInvariant
  import opened LifecycleSteps
  import opened LifecycleActions
  import opened LifecycleRequests
  import opened LifecycleLoads
  import opened LifecycleInduction
  import opened LifecycleProgress

  /** The task that an action moves, among those there are. */
  function ActorOf(a: Action): Option<Task> {
    match a
    case Env(_) => None
    case Request(act) => if act.CallerDeparts? then None else Some(act.t)
    case Loader(act) => Some(act.t)
    case Sweep(act) => Some(act.t)
    case Drains(act) => Some(act.t)
    case Evicts(act) => Some(act.t)
  }

  /** Task `t` stays where it is, and so does the registry if `t` has it locked. */
  ghost predicate Still(s: State, s': State, t: Task) {
    t in s.tasks && t in s'.tasks && s'.tasks[t] == s.tasks[t] && (s.mu == Some(t) ==> RegistrySame(s, s'))
  }

  /** If `t` has the lock, then no other task is where one has it. */
  ghost predicate Alone(s: State, t: Task) {
    s.mu == Some(t) ==> forall u | u in s.tasks && HoldsMu(s.tasks[u]) :: u == t
  }

  lemma LocksAlone(s: State, t: Task)
    requires Inv(s)
    ensures Alone(s, t)
  {
    forall u | s.mu == Some(t) && u in s.tasks && HoldsMu(s.tasks[u])
      ensures u == t
    {
      SettlingHoldsMu(s, u);
    }
  }

  lemma EnvStill(s: State, a: EnvAction, t: Task)
    requires EnvEnabled(s, a) && t in s.tasks
    ensures Still(s, ApplyEnv(s, a), t)
  {
    hide SetTtl, TimerFires, Broadcast;
  }

  lemma RequestStill(s: State, a: RequestAction, t: Task)
    requires RequestEnabled(s, a) && t in s.tasks && (a.t != t || a.CallerDeparts?)
    ensures Still(s, ApplyRequest(s, a), t)
  {
    hide RequestEnabled, ApplyRequest;
    RequestMoves(s, a);
  }

  lemma EvictOldestStill(s: State, u: Task, victim: Model, d: Task, t: Task)
    requires LoaderEnabled(s, EvictOldest(u, victim, d)) && t in s.tasks && u != t && s.mu != Some(t)
    ensures Still(s, ApplyLoader(s, EvictOldest(u, victim, d)), t)
  {
    hide MarkEvicted, Registered, Oldest;
  }

  lemma LoaderStill(s: State, a: LoadAction, t: Task)
    requires LoaderEnabled(s, a) && t in s.tasks && a.t != t && Alone(s, t)
    ensures Still(s, ApplyLoader(s, a), t)
  {
    if a.EvictOldest? {
      hide Oldest, ApplyLoader;
      EvictOldestStill(s, a.t, a.victim, a.drainer, t);
    } else {
      hide Grant, NewResident, Oldest, EvictVictim;
    }
  }

  lemma SweepStill(s: State, a: SweepAction, t: Task)
    requires SweepEnabled(s, a) && t in s.tasks && a.t != t && Alone(s, t)
    ensures Still(s, ApplySweep(s, a), t)
  {
    hide MarkStopped;
  }

  lemma DrainsStill(s: State, a: DrainAction, t: Task)
    requires DrainsEnabled(s, a) && t in s.tasks && a.t != t
    ensures Still(s, ApplyDrains(s, a), t)
  {
    hide DrainPass, IdleCallbackPass, Registered, DrainDecision, DrainNext, IdleCallbackActs, AfterDrain;
  }

  lemma EvictsStill(s: State, a: EvictAction, t: Task)
    requires EvictsEnabled(s, a) && t in s.tasks && a.t != t
    ensures Still(s, ApplyEvicts(s, a), t)
  {
  }

  lemma OnlyActorMoves(s: State, a: Action, t: Task)
    requires Inv(s) && Enabled(s, a) && t in s.tasks && ActorOf(a) != Some(t)
    ensures Still(s, Apply(s, a), t)
  {
    LocksAlone(s, t);
    hide Inv, Still, Alone, EnvEnabled, RequestEnabled, LoaderEnabled, SweepEnabled, DrainsEnabled, EvictsEnabled;
    hide ApplyEnv, ApplyRequest, ApplyLoader, ApplySweep, ApplyDrains, ApplyEvicts;
    match a
    case Env(act) => EnvStill(s, act, t);
    case Request(act) => RequestStill(s, act, t);
    case Loader(act) => LoaderStill(s, act, t);
    case Sweep(act) => SweepStill(s, act, t);
    case Drains(act) => DrainsStill(s, act, t);
    case Evicts(act) => EvictsStill(s, act, t);
  }
}
