/** How requests end, in every run. */
module LifecycleOutcomes {
  import opened Options
  import opened Residents
  import opened Lifecycle
  import opened LifecycleInvariant
  import opened LifecycleSteps
  import opened LifecycleActions
  import opened LifecycleRequests
  import opened LifecycleLoads
  import opened LifecycleInduction
  import opened LifecycleTheorems
  import opened LifecycleProgress
  import opened LifecycleFrames
  import opened LifecycleFields

  // ----- Where a request stands

  /** The task is inside `getOrLaunchInstance` for this Model, with no answer yet. */
  predicate Asks(pc: Pc, m: Model) {
    match pc
    case Retry(m') => m' == m
    case Acquire(m', _, _) => m' == m
    case Asleep(m', _, _) => m' == m
    case TurnedAway(m', _, _) => m' == m
    case Joined(m', _) => m' == m
    case Launching(m', _) => m' == m
    case Probing(m', _, _) => m' == m
    case Scanning(m', _, _, _) => m' == m
    case Settling(m', _, _) => m' == m
    case Sweeping(_, why) => why.ForTuning? && why.m == m
    case Reaping(_, why) => why.ForTuning? && why.m == m
    case _ => false
  }

  /** The task has been given an Instance of this Model. */
  predicate Served(s: State, t: Task, m: Model) {
    && t in s.tasks && (s.tasks[t].Serving? || s.tasks[t].Slotless?)
    && s.tasks[t].i in s.residents && s.residents[s.tasks[t].i].model == m
  }

  /** A load of this Model that the task had joined has settled without an Instance. */
  predicate LoadFailed(s: State, t: Task, m: Model) {
    exists l :: l in s.loads && s.loads[l].model == m && t in s.loads[l].joined && s.loads[l].ready && s.loads[l].inst.None?
  }

  /** Why a request may leave in this step. */
  predicate Answers(s: State, a: Action, s': State, t: Task, m: Model) {
    || Served(s', t, m)
    || (a == Request(EnterClosed(t)) && s.closed)
    || t in s.finished
    || LoadFailed(s', t, m)
  }

  ghost predicate GoesOn(s: State, a: Action, s': State, t: Task, m: Model) {
    t in s'.tasks && (Asks(s'.tasks[t], m) || Answers(s, a, s', t, m))
  }

  // ----- One step of a request

  lemma AskedInstance(s: State, t: Task, m: Model)
    requires Inv(s) && t in s.tasks && Asks(s.tasks[t], m)
    ensures s.tasks[t].Acquire? || s.tasks[t].Asleep? || s.tasks[t].TurnedAway? ==>
              s.tasks[t].i in s.residents && s.residents[s.tasks[t].i].model == m
  {
    InvPc(s, t);
  }

  lemma AskedLoad(s: State, t: Task, m: Model)
    requires Inv(s) && t in s.tasks && Asks(s.tasks[t], m)
    ensures s.tasks[t].Joined? || s.tasks[t].Launching? || s.tasks[t].Probing? || s.tasks[t].Settling? ==>
              var l := s.tasks[t].l; l in s.loads && s.loads[l].model == m && t in s.loads[l].joined
  {
    InvPc(s, t);
  }

  lemma LoadedModel(s: State, l: LoadId)
    requires Inv(s) && l in s.loads
    ensures s.loads[l].inst.Some? ==>
              s.loads[l].inst.value in s.residents && s.residents[s.loads[l].inst.value].model == s.loads[l].model
  {
    InvLoad(s, l);
  }

  lemma FailedBy(s: State, t: Task, m: Model, l: LoadId)
    requires l in s.loads && s.loads[l].model == m && t in s.loads[l].joined && s.loads[l].ready && s.loads[l].inst.None?
    ensures LoadFailed(s, t, m)
  {
  }

  lemma AttemptGoes(s: State, t: Task, now: int, m: Model)
    requires RequestEnabled(s, Attempt(t, now)) && Asks(s.tasks[t], m) && s.residents[s.tasks[t].i].model == m && Slotted(s)
    ensures GoesOn(s, Request(Attempt(t, now)), ApplyRequest(s, Attempt(t, now)), t, m)
  {
    var i := s.tasks[t].i;
    UsesSet(s.residents[i], t, now);
    hide VerdictFor, Grant, Sleep, LoadFailed, Slotted;
    match VerdictFor(s, t)
    case Refused =>
    case Full =>
    case Granted =>
  }

  lemma FollowGoes(s: State, t: Task, m: Model)
    requires RequestEnabled(s, FollowReady(t)) && Asks(s.tasks[t], m)
    requires var l := s.tasks[t].l; l in s.loads && s.loads[l].model == m && t in s.loads[l].joined
    requires var inst := s.loads[s.tasks[t].l].inst; inst.Some? ==> inst.value in s.residents && s.residents[inst.value].model == m
    ensures GoesOn(s, Request(FollowReady(t)), ApplyRequest(s, FollowReady(t)), t, m)
  {
    if s.loads[s.tasks[t].l].inst.None? {
      FailedBy(ApplyRequest(s, FollowReady(t)), t, m, s.tasks[t].l);
    }
    hide LoadFailed;
  }

  lemma TurnAwayGoes(s: State, t: Task, m: Model)
    requires RequestEnabled(s, TurnAway(t)) && t in s.tasks && Asks(s.tasks[t], m)
    ensures GoesOn(s, Request(TurnAway(t)), ApplyRequest(s, TurnAway(t)), t, m)
  {
    hide Registered, LoadFailed;
  }

  lemma EnterGoes(s: State, a: RequestAction, m: Model)
    requires RequestEnabled(s, a) && a.t in s.tasks && Asks(s.tasks[a.t], m)
    requires !a.Attempt? && !a.FollowReady? && !a.TurnAway? && !a.CallerDeparts?
    ensures GoesOn(s, Request(a), ApplyRequest(s, a), a.t, m)
  {
    hide MarkStopped, Registered, LoadFailed, Release;
  }

  lemma RequestGoes(s: State, a: RequestAction, m: Model)
    requires Inv(s) && RequestEnabled(s, a) && !a.CallerDeparts? && a.t in s.tasks && Asks(s.tasks[a.t], m)
    ensures GoesOn(s, Request(a), ApplyRequest(s, a), a.t, m)
  {
    hide Inv, Asks, GoesOn, RequestEnabled, ApplyRequest;
    match a
    case Attempt(t, now) => AttemptAsked(s, t, now, m);
    case FollowReady(t) => FollowAsked(s, t, m);
    case TurnAway(t) => TurnAwayGoes(s, t, m);
    case _ => EnterGoes(s, a, m);
  }

  lemma AttemptAsked(s: State, t: Task, now: int, m: Model)
    requires Inv(s) && RequestEnabled(s, Attempt(t, now)) && t in s.tasks && Asks(s.tasks[t], m)
    ensures GoesOn(s, Request(Attempt(t, now)), ApplyRequest(s, Attempt(t, now)), t, m)
  {
    hide Inv, Asks, GoesOn, ApplyRequest, Slotted;
    AskedInstance(s, t, m);
    InvSlotted(s);
    AttemptGoes(s, t, now, m);
  }

  lemma FollowAsked(s: State, t: Task, m: Model)
    requires Inv(s) && RequestEnabled(s, FollowReady(t)) && t in s.tasks && Asks(s.tasks[t], m)
    ensures GoesOn(s, Request(FollowReady(t)), ApplyRequest(s, FollowReady(t)), t, m)
  {
    hide Inv, Asks, GoesOn, ApplyRequest;
    AskedLoad(s, t, m);
    LoadedModel(s, s.tasks[t].l);
    FollowGoes(s, t, m);
  }

  lemma SettleGoes(s: State, a: LoadAction, m: Model)
    requires LoaderEnabled(s, a) && (a.SettleError? || a.SettleClosed? || a.Reject?) && Asks(s.tasks[a.t], m)
    requires var l := s.tasks[a.t].l; l in s.loads && s.loads[l].model == m && a.t in s.loads[l].joined
    ensures GoesOn(s, Loader(a), ApplyLoader(s, a), a.t, m)
  {
    FailedBy(ApplyLoader(s, a), a.t, m, s.tasks[a.t].l);
    hide LoadFailed;
  }

  lemma PublishGoes(s: State, t: Task, ttl: int, slots: int, now: int, m: Model)
    requires Inv(s) && LoaderEnabled(s, Publish(t, ttl, slots, now)) && t in s.tasks && Asks(s.tasks[t], m)
    ensures var a := Publish(t, ttl, slots, now); GoesOn(s, Loader(a), ApplyLoader(s, a), t, m)
  {
    PublishSets(s, t, ttl, slots, now);
    hide Inv, LoadFailed, ApplyLoader;
  }

  lemma EvictingGoes(s: State, t: Task, victim: Model, d: Task, m: Model)
    requires LoaderEnabled(s, EvictOldest(t, victim, d)) && t in s.tasks && Asks(s.tasks[t], m)
    ensures var a := EvictOldest(t, victim, d); GoesOn(s, Loader(a), ApplyLoader(s, a), t, m)
  {
    hide MarkEvicted, Registered, Oldest, LoadFailed;
  }

  lemma LaunchGoes(s: State, a: LoadAction, m: Model)
    requires LoaderEnabled(s, a) && a.t in s.tasks && Asks(s.tasks[a.t], m)
    requires a.Launch? || a.StopProbe? || a.SettleRoom? || a.StartScan? || a.ScanOne? || a.Discard?
    ensures GoesOn(s, Loader(a), ApplyLoader(s, a), a.t, m)
  {
    hide LoadFailed;
  }

  lemma LoaderGoes(s: State, a: LoadAction, m: Model)
    requires Inv(s) && LoaderEnabled(s, a) && a.t in s.tasks && Asks(s.tasks[a.t], m)
    ensures GoesOn(s, Loader(a), ApplyLoader(s, a), a.t, m)
  {
    hide Inv, Asks, GoesOn, LoaderEnabled, ApplyLoader;
    match a
    case Publish(t, ttl, slots, now) => PublishGoes(s, t, ttl, slots, now, m);
    case EvictOldest(t, victim, d) => EvictingGoes(s, t, victim, d, m);
    case SettleError(_) => SettleAsked(s, a, m);
    case SettleClosed(_) => SettleAsked(s, a, m);
    case Reject(_) => SettleAsked(s, a, m);
    case _ => LaunchGoes(s, a, m);
  }

  lemma SettleAsked(s: State, a: LoadAction, m: Model)
    requires Inv(s) && LoaderEnabled(s, a) && (a.SettleError? || a.SettleClosed? || a.Reject?) && a.t in s.tasks && Asks(s.tasks[a.t], m)
    ensures GoesOn(s, Loader(a), ApplyLoader(s, a), a.t, m)
  {
    hide Inv, Asks, GoesOn, ApplyLoader;
    AskedLoad(s, a.t, m);
    SettleGoes(s, a, m);
  }

  lemma SweepGoes(s: State, a: SweepAction, m: Model)
    requires SweepEnabled(s, a) && a.t in s.tasks && Asks(s.tasks[a.t], m)
    ensures GoesOn(s, Sweep(a), ApplySweep(s, a), a.t, m)
  {
    hide MarkStopped, LoadFailed;
  }

  lemma NoDrainAsks(s: State, a: DrainAction, m: Model)
    requires DrainsEnabled(s, a)
    ensures a.t in s.tasks && !Asks(s.tasks[a.t], m)
  {
  }

  lemma NoEvictAsks(s: State, a: EvictAction, m: Model)
    requires EvictsEnabled(s, a)
    ensures a.t in s.tasks && !Asks(s.tasks[a.t], m)
  {
  }

  lemma StillAsks(s: State, a: Action, s': State, t: Task, m: Model)
    requires t in s.tasks && Asks(s.tasks[t], m) && Still(s, s', t)
    ensures GoesOn(s, a, s', t, m)
  {
  }

  lemma StepGoes(s: State, a: Action, t: Task, m: Model)
    requires Inv(s) && Enabled(s, a) && t in s.tasks && Asks(s.tasks[t], m)
    ensures GoesOn(s, a, Apply(s, a), t, m)
  {
    if ActorOf(a) != Some(t) {
      OnlyActorMoves(s, a, t);
      StillAsks(s, a, Apply(s, a), t, m);
    } else {
      hide Inv, Asks, GoesOn, RequestEnabled, LoaderEnabled, SweepEnabled, DrainsEnabled, EvictsEnabled;
      hide ApplyRequest, ApplyLoader, ApplySweep, ApplyDrains, ApplyEvicts;
      match a
      case Request(act) => RequestGoes(s, act, m);
      case Loader(act) => LoaderGoes(s, act, m);
      case Sweep(act) => SweepGoes(s, act, m);
      case Drains(act) => NoDrainAsks(s, act, m);
      case Evicts(act) => NoEvictAsks(s, act, m);
    }
  }

  // ----- Whole requests

  /** Some step between states `j` and `k` answered the request. */
  ghost predicate AnsweredIn(states: seq<State>, actions: seq<Action>, j: nat, k: nat, t: Task, m: Model) {
    exists n :: j <= n < k && n + 1 < |states| && n < |actions| && Answers(states[n], actions[n], states[n + 1], t, m)
  }

  lemma {:induction false} AsksOrAnswered(states: seq<State>, actions: seq<Action>, j: nat, k: nat, t: Task, m: Model)
    requires IsRun(states, actions) && j <= k < |states| && t in states[j].tasks && Asks(states[j].tasks[t], m)
    ensures AnsweredIn(states, actions, j, k, t, m) || (t in states[k].tasks && Asks(states[k].tasks[t], m))
    decreases k - j
  {
    hide Inv, IsRun, Enabled, Apply, Asks, Answers;
    if j < k {
      RunLength(states, actions);
      AsksOrAnswered(states, actions, j, k - 1, t, m);
      if AnsweredIn(states, actions, j, k - 1, t, m) {
        var n :| j <= n < k - 1 && Answers(states[n], actions[n], states[n + 1], t, m);
      } else {
        RunStep(states, actions, k - 1);
        StepGoes(states[k - 1], actions[k - 1], t, m);
      }
    }
  }

  lemma Arrives(states: seq<State>, actions: seq<Action>, j: nat, t: Task, m: Model)
    requires IsRun(states, actions) && j < |actions| && actions[j] == Env(NewRequest(t, m))
    ensures j + 1 < |states| && t in states[j + 1].tasks && states[j + 1].tasks[t] == Retry(m)
  {
    hide Inv;
    RunStep(states, actions, j);
    assert states[j + 1] == ApplyEnv(states[j], NewRequest(t, m));
  }

  /** A request for a Model does not leave unanswered: if it has returned, then on the way it was
      given an Instance of that Model, or it came upon a closed Supervisor, or its context was
      finished, or a load of that Model that it had joined settled without an Instance. */
  lemma RequestAnswered(states: seq<State>, actions: seq<Action>, j: nat, k: nat, t: Task, m: Model)
    requires IsRun(states, actions) && j < |actions| && j < k < |states| && actions[j] == Env(NewRequest(t, m))
    requires t in states[k].tasks && states[k].tasks[t] == Returned
    ensures AnsweredIn(states, actions, j + 1, k, t, m)
  {
    Arrives(states, actions, j, t, m);
    AsksOrAnswered(states, actions, j + 1, k, t, m);
    hide IsRun;
  }

  // ----- What an attempt decides

  /** An attempt to take a slot is refused exactly if the context is finished or the Instance drains, is
      stopped or has exited; else it gets a slot if one is free, and otherwise sleeps. */
  lemma AttemptDecides(states: seq<State>, actions: seq<Action>, k: nat, t: Task, now: int)
    requires IsRun(states, actions) && k < |actions| && actions[k] == Request(Attempt(t, now))
    ensures k + 1 < |states| && t in states[k].tasks && t in states[k + 1].tasks
    ensures (states[k].tasks[t].Acquire? || states[k].tasks[t].Asleep?) && states[k].tasks[t].i in states[k].residents
    ensures var s, s', i := states[k], states[k + 1], states[k].tasks[t].i;
            var r := s.residents[i];
            && i in s'.residents
            && (s'.tasks[t].TurnedAway? <==> t in s.finished || Blocked(s, i))
            && (s'.tasks[t] == Serving(i) <==> !(t in s.finished || Blocked(s, i)) && r.active < r.maxSlots)
            && (s'.tasks[t].Asleep? <==> !(t in s.finished || Blocked(s, i)) && r.active >= r.maxSlots)
            && (s'.tasks[t] == Serving(i) ==> t in s'.residents[i].grants && s'.residents[i].lastUsed == now)
            && (s'.tasks[t].Asleep? ==> t in s'.residents[i].waiters)
  {
    RunStep(states, actions, k);
    assert RequestEnabled(states[k], Attempt(t, now)) && states[k + 1] == ApplyRequest(states[k], Attempt(t, now));
    InvSlotted(states[k]);
    hide IsRun, Inv;
    AttemptIs(states[k], t, now);
  }

  lemma AttemptIs(s: State, t: Task, now: int)
    requires RequestEnabled(s, Attempt(t, now)) && Slotted(s)
    ensures var s', i := ApplyRequest(s, Attempt(t, now)), s.tasks[t].i;
            var r := s.residents[i];
            && t in s'.tasks && i in s'.residents
            && (s'.tasks[t].TurnedAway? <==> t in s.finished || Blocked(s, i))
            && (s'.tasks[t] == Serving(i) <==> !(t in s.finished || Blocked(s, i)) && r.active < r.maxSlots)
            && (s'.tasks[t].Asleep? <==> !(t in s.finished || Blocked(s, i)) && r.active >= r.maxSlots)
            && (s'.tasks[t] == Serving(i) ==> t in s'.residents[i].grants && s'.residents[i].lastUsed == now)
            && (s'.tasks[t].Asleep? ==> t in s'.residents[i].waiters)
  {
    VerdictIs(s, t);
    GrantIs(s.residents[s.tasks[t].i], t, now);
    hide VerdictFor, Grant, Sleep, Blocked;
    match VerdictFor(s, t)
    case Refused =>
    case Full =>
    case Granted =>
  }

  lemma VerdictIs(s: State, t: Task)
    requires Attempting(s, t) && Slotted(s)
    ensures var v, i := VerdictFor(s, t), s.tasks[t].i;
            && (v == Refused <==> t in s.finished || Blocked(s, i))
            && (v == Granted <==> !(t in s.finished || Blocked(s, i)) && s.residents[i].active < s.residents[i].maxSlots)
  {
  }

  lemma GrantIs(r: Resident, t: Task, now: int)
    ensures t in Grant(r, t, now).grants && Grant(r, t, now).lastUsed == now && t in Sleep(r, t).waiters
  {
  }

  /** A request that was turned away and has not finished tries again, and unless it came as a follower
      the Instance that refused it is no longer registered. */
  lemma TurnedAwayRetries(states: seq<State>, actions: seq<Action>, k: nat, t: Task)
    requires IsRun(states, actions) && k < |actions| && actions[k] == Request(TurnAway(t))
    ensures k + 1 < |states| && t in states[k].tasks && states[k].tasks[t].TurnedAway? && t in states[k + 1].tasks
    ensures var s, s', pc := states[k], states[k + 1], states[k].tasks[t];
            if t in s.finished then s'.tasks[t] == Returned
            else s'.tasks[t] == Retry(pc.m) && (pc.follower || !Registered(s', pc.i))
  {
    hide Inv, IsRun;
    RunStep(states, actions, k);
    assert RequestEnabled(states[k], TurnAway(t)) && states[k + 1] == ApplyRequest(states[k], TurnAway(t));
  }

  /** A request that finds a dead entry marks the Instance stopped, wakes whoever sleeps on it, drops the
      entry, and starts a load of its own. */
  lemma DeadIsDropped(states: seq<State>, actions: seq<Action>, k: nat, t: Task, l: LoadId)
    requires IsRun(states, actions) && k < |actions| && actions[k] == Request(EnterDead(t, l))
    ensures k + 1 < |states| && t in states[k].tasks && states[k].tasks[t].Retry? && states[k].tasks[t].m in states[k].instances
    ensures var s, s', m := states[k], states[k + 1], states[k].tasks[t].m;
            var i := s.instances[m];
            && i !in s.alive && i in s'.residents && s'.residents[i].stopped
            && s'.residents[i].waiters == {} && s'.residents[i].drainers == {}
            && m !in s'.instances && m in s'.loading && s'.loading[m] == l
            && t in s'.tasks && s'.tasks[t] == Launching(m, l) && l in s'.loads && !s'.loads[l].ready && s'.loads[l].joined == {t}
  {
    RunStep(states, actions, k);
    var s, m := states[k], states[k].tasks[t].m;
    assert RequestEnabled(s, EnterDead(t, l)) && states[k + 1] == ApplyRequest(s, EnterDead(t, l));
    DroppedFacts(s, DropDead(s, s.instances[m]), m);
    DroppedMarks(s, s.instances[m]);
    hide Inv, IsRun, DropDead;
  }

  lemma DroppedMarks(s: State, i: Inst)
    requires i in s.residents
    ensures var d := DropDead(s, i);
            i in d.residents && d.residents[i].stopped && d.residents[i].waiters == {} && d.residents[i].drainers == {}
  {
  }

  /** A sleeper whose context is finished is woken by its own watcher and leaves. */
  lemma CancelledSleeperLeaves(s: State, t: Task, now: int) returns (s1: State, s2: State)
    requires t in s.tasks && s.tasks[t].Asleep? && t in s.finished && s.tasks[t].i in s.residents && Slotted(s)
    ensures var i := s.tasks[t].i;
            && Enabled(s, Env(CancelledSleeperBroadcast(t, i))) && s1 == Apply(s, Env(CancelledSleeperBroadcast(t, i)))
            && Enabled(s1, Request(Attempt(t, now))) && s2 == Apply(s1, Request(Attempt(t, now)))
            && t in s2.tasks && s2.tasks[t].TurnedAway?
  {
    var i := s.tasks[t].i;
    OthersSet(s.residents[i], t, false);
    s1 := Apply(s, Env(CancelledSleeperBroadcast(t, i)));
    assert t !in s1.residents[i].waiters;
    hide Broadcast, ApplyRequest;
    AttemptIs(s1, t, now);
    s2 := Apply(s1, Request(Attempt(t, now)));
  }

  /** A request for a resident Instance with a free slot is served in two steps. */
  lemma WarmStart(s: State, t: Task, m: Model, now: int) returns (s1: State, s2: State)
    requires Inv(s) && t in s.tasks && s.tasks[t] == Retry(m) && t !in s.finished && s.mu.None?
    requires m in s.instances && !Blocked(s, s.instances[m])
    requires s.instances[m] in s.residents && s.residents[s.instances[m]].active < s.residents[s.instances[m]].maxSlots
    ensures Enabled(s, Request(EnterResident(t))) && s1 == Apply(s, Request(EnterResident(t)))
    ensures Enabled(s1, Request(Attempt(t, now))) && s2 == Apply(s1, Request(Attempt(t, now)))
    ensures var i := s.instances[m];
            && t in s2.tasks && s2.tasks[t] == Serving(i) && i in s2.residents
            && t in s2.residents[i].grants && s2.residents[i].model == m && s2.residents[i].lastUsed == now
  {
    hide Inv, ApplyRequest, Slotted, ResidentOk;
    s1 := EntersResident(s, t, m);
    AttemptIs(s1, t, now);
    s2 := Apply(s1, Request(Attempt(t, now)));
    AttemptFields(s1, t, now, s.instances[m]);
  }

  lemma EntersResident(s: State, t: Task, m: Model) returns (s1: State)
    requires Inv(s) && t in s.tasks && s.tasks[t] == Retry(m) && s.mu.None?
    requires m in s.instances && s.instances[m] in s.residents && !Blocked(s, s.instances[m])
    ensures Enabled(s, Request(EnterResident(t))) && s1 == Apply(s, Request(EnterResident(t)))
    ensures s1 == Goto(s, t, Acquire(m, s.instances[m], false)) && Slotted(s1)
    ensures s.residents[s.instances[m]].model == m
  {
    hide Inv, Slotted, RegistryOk, LoadsOk, PcsOk;
    NotClosed(s, m);
    EntryOk(s, m);
    InvSlotted(s);
    s1 := Apply(s, Request(EnterResident(t)));
    SlottedSame(s, s1);
  }

  lemma NotClosed(s: State, m: Model)
    requires Inv(s) && s.mu.None? && m in s.instances
    ensures !s.closed
  {
    InvRegistry(s);
    hide Inv;
  }

  lemma SlottedSame(s: State, s1: State)
    requires Slotted(s) && s1.residents == s.residents
    ensures Slotted(s1)
  {
  }
}
