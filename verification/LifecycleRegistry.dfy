/** What the registry guarantees in every run: one load per Model, generations kept apart,
    the cap, the idle timers, shutdown and fair cancellation. */
module LifecycleRegistry {
  import opened Options
  import opened Residents
  import opened Lifecycle
  import opened LifecycleInvariant
  import opened LifecycleSteps
  import opened LifecycleActions
  import opened LifecycleRequests
  import opened LifecycleLoads
  import opened LifecycleInduction
  import opened LifecycleMonotone
  import opened LifecycleTheorems

  // ----- Single flight

  lemma LoaderOfUnready(s: State, l: LoadId)
    requires Inv(s) && l in s.loads && !s.loads[l].ready
    ensures var L := s.loads[l];
            && L.loader in s.tasks && IsLoading(s.tasks[L.loader], L.model, l)
            && (if s.tasks[L.loader].Settling? then s.mu == Some(L.loader) && L.model !in s.loading
                else L.model in s.loading && s.loading[L.model] == l)
  {
    InvLoad(s, l);
    InvPc(s, s.loads[l].loader);
  }

  lemma OneLoadPerModel(s: State, l1: LoadId, l2: LoadId)
    requires Inv(s) && l1 in s.loads && l2 in s.loads && !s.loads[l1].ready && !s.loads[l2].ready
    requires s.loads[l1].model == s.loads[l2].model
    ensures l1 == l2
  {
    LoaderOfUnready(s, l1);
    LoaderOfUnready(s, l2);
    hide Inv;
  }

  /** No Model is both resident and loading, and at most one load of a Model is in flight. */
  lemma SingleFlight(states: seq<State>, actions: seq<Action>, k: nat)
    requires IsRun(states, actions) && k < |states|
    ensures var s := states[k];
            && s.instances.Keys !! s.loading.Keys
            && (forall m | m in s.loading :: s.loading[m] in s.loads && s.loads[s.loading[m]].model == m)
            && forall l1, l2 | l1 in s.loads && l2 in s.loads && !s.loads[l1].ready && !s.loads[l2].ready
                 && s.loads[l1].model == s.loads[l2].model :: l1 == l2
  {
    var s := states[k];
    Reachable(states, actions, k);
    InvRegistry(s);
    hide IsRun, Inv;
    assert forall m | m in s.loading :: Loads(s, m);
    forall l1, l2 | l1 in s.loads && l2 in s.loads && !s.loads[l1].ready && !s.loads[l2].ready
                    && s.loads[l1].model == s.loads[l2].model
      ensures l1 == l2
    {
      OneLoadPerModel(s, l1, l2);
    }
  }

  // ----- Generations

  /** An entry stays as it is until it is removed, and a new entry is of a new Instance. */
  ghost predicate EntriesKept(s: State, s': State) {
    && (forall m | m in s.instances && m in s'.instances :: s'.instances[m] == s.instances[m])
    && (forall m | m in s'.instances && m !in s.instances :: s'.instances[m] !in s.residents)
  }

  lemma EntriesStep(s: State, a: Action)
    requires Inv(s) && Enabled(s, a)
    ensures EntriesKept(s, Apply(s, a))
  {
    hide Inv, EntriesKept, EnvEnabled, RequestEnabled, LoaderEnabled, SweepEnabled, DrainsEnabled, EvictsEnabled;
    hide ApplyEnv, ApplyRequest, ApplyLoader, ApplySweep, ApplyDrains, ApplyEvicts;
    match a
    case Env(act) => EnvEntries(s, act);
    case Request(act) => RequestEntries(s, act);
    case Loader(act) => LoaderEntries(s, act);
    case Sweep(act) => SweepEntries(s, act);
    case Drains(act) => DrainEntries(s, act);
    case Evicts(act) => EvictEntries(s, act);
  }

  lemma EnvEntries(s: State, a: EnvAction)
    requires EnvEnabled(s, a)
    ensures EntriesKept(s, ApplyEnv(s, a)) && AbandonKept(s, ApplyEnv(s, a))
  {
    hide SetTtl, TimerFires;
  }

  lemma SweepEntries(s: State, a: SweepAction)
    requires SweepEnabled(s, a)
    ensures EntriesKept(s, ApplySweep(s, a)) && AbandonKept(s, ApplySweep(s, a))
  {
    hide MarkStopped;
  }

  lemma EvictEntries(s: State, a: EvictAction)
    requires EvictsEnabled(s, a)
    ensures EntriesKept(s, ApplyEvicts(s, a))
  {
  }

  lemma RequestEntries(s: State, a: RequestAction)
    requires RequestEnabled(s, a)
    ensures EntriesKept(s, ApplyRequest(s, a))
  {
    hide Release, DoAttempt, Forget, DropDead;
    if a.Attempt? {
      AttemptEntries(s, a.t, a.now);
    } else if a.TurnAway? {
      ForgetEntries(s, s.tasks[a.t].i);
    } else if a.EnterDead? {
      DropEntries(s, s.instances[s.tasks[a.t].m]);
    }
  }

  lemma ForgetEntries(s: State, i: Inst)
    requires i in s.residents
    ensures EntriesKept(s, Forget(s, i))
  {
  }

  lemma DropEntries(s: State, i: Inst)
    requires i in s.residents
    ensures EntriesKept(s, DropDead(s, i)) && DropDead(s, i).instances.Keys <= s.instances.Keys
  {
    hide MarkStopped;
  }

  lemma AttemptEntries(s: State, t: Task, now: int)
    requires Attempting(s, t)
    ensures DoAttempt(s, t, now).instances == s.instances
  {
    hide VerdictFor, Grant, Sleep;
    match VerdictFor(s, t)
    case Refused =>
    case Full =>
    case Granted =>
  }

  lemma DrainEntries(s: State, a: DrainAction)
    requires DrainsEnabled(s, a)
    ensures EntriesKept(s, ApplyDrains(s, a))
  {
    hide DrainPass, IdleCallbackPass;
  }

  lemma LoaderEntries(s: State, a: LoadAction)
    requires Inv(s) && LoaderEnabled(s, a)
    ensures EntriesKept(s, ApplyLoader(s, a))
  {
    hide Inv, Grant, MarkEvicted;
    if a.Publish? {
      InvPc(s, a.t);
      SettlingFacts(s, a.t);
      hide PcOk;
    }
  }

  /** Registering never overwrites: an entry stays as it is until it is removed. */
  lemma NeverOverwritten(states: seq<State>, actions: seq<Action>, k: nat, m: Model)
    requires IsRun(states, actions) && k < |actions| && m in states[k].instances && m in states[k + 1].instances
    ensures states[k + 1].instances[m] == states[k].instances[m]
  {
    Reachable(states, actions, k);
    EntriesStep(states[k], actions[k]);
  }

  lemma BackInRegistry(s: State, a: Action, i: Inst)
    requires Inv(s) && Enabled(s, a) && i in s.residents && Registered(Apply(s, a), i)
    ensures Registered(s, i)
  {
    EntriesStep(s, a);
    ActionOnward(s, a);
    assert InstOnward(s, Apply(s, a), i);
  }

  /** An Instance that has left the registry never comes back. */
  lemma {:induction false} NeverReregistered(states: seq<State>, actions: seq<Action>, j: nat, k: nat, i: Inst)
    requires IsRun(states, actions) && j <= k < |states| && i in states[j].residents && !Registered(states[j], i)
    ensures i in states[k].residents && !Registered(states[k], i)
    decreases k - j
  {
    hide Inv, Apply, Enabled, Init, Registered;
    if j < k {
      NeverReregistered(states, actions, j, k - 1, i);
      Reachable(states, actions, k - 1);
      if Registered(states[k], i) {
        BackInRegistry(states[k - 1], actions[k - 1], i);
      }
      StaysKnown(states, actions, k - 1, i);
    }
  }

  lemma StaysKnown(states: seq<State>, actions: seq<Action>, k: nat, i: Inst)
    requires IsRun(states, actions) && k < |actions| && i in states[k].residents
    ensures i in states[k + 1].residents
  {
    NoGrantAfterBlocked(states, actions, k, k + 1, i);
  }

  lemma ForgetSpares(s: State, i: Inst)
    requires i in s.residents
    ensures !Registered(s, i) ==> Forget(s, i) == s
    ensures Forget(s, i).instances == if Registered(s, i) then s.instances - {s.residents[i].model} else s.instances
  {
  }

  /** Task `t` takes a drain or a failed `acquire` of Instance `i` to the registry. */
  predicate ComesLate(s: State, a: Action, t: Task, i: Inst) {
    && t in s.tasks
    && ((a == Drains(Unregister(t)) && s.tasks[t].Unregistering? && s.tasks[t].i == i)
        || (a == Request(TurnAway(t)) && s.tasks[t].TurnedAway? && s.tasks[t].i == i))
  }

  lemma LateForgets(s: State, a: Action, t: Task, i: Inst)
    requires Enabled(s, a) && ComesLate(s, a, t, i)
    ensures i in s.residents && (Apply(s, a).instances == s.instances || Apply(s, a).instances == Forget(s, i).instances)
  {
    hide Forget;
    ForgetLeaves(s, i);
  }

  lemma ForgetLeaves(s: State, i: Inst)
    ensures forall t: Task, pc: Pc :: i in s.residents ==> Goto(Forget(s, i), t, pc).instances == Forget(s, i).instances
  {
  }

  /** A late drain or a failed `acquire` of an Instance removes the entry of that Instance or
      none; and once the Instance has left the registry, whenever that was, none. */
  lemma SuccessorSpared(states: seq<State>, actions: seq<Action>, j: nat, k: nat, t: Task, i: Inst)
    requires IsRun(states, actions) && j <= k < |actions| && ComesLate(states[k], actions[k], t, i)
    ensures forall m | m in states[k].instances && states[k].instances[m] != i ::
              m in states[k + 1].instances && states[k + 1].instances[m] == states[k].instances[m]
    ensures i in states[j].residents && !Registered(states[j], i) ==> states[k + 1].instances == states[k].instances
  {
    LateForgets(states[k], actions[k], t, i);
    ForgetSpares(states[k], i);
    if i in states[j].residents && !Registered(states[j], i) {
      hide Apply, Enabled, Init, Forget, ComesLate;
      NeverReregistered(states, actions, j, k, i);
    }
  }

  // ----- Capacity

  /** The registry never holds more Instances than the cap. */
  lemma CapHolds(states: seq<State>, actions: seq<Action>, k: nat)
    requires IsRun(states, actions) && k < |states|
    ensures states[k].cap > 0 ==> |states[k].instances| <= states[k].cap
  {
    Reachable(states, actions, k);
    CapKept(states[k]);
  }

  // ----- Idle timers

  /** An active timer means an idle Instance with a time to live, and it is backed by the
      runtime or by a callback on its way. */
  lemma TimerSound(states: seq<State>, actions: seq<Action>, k: nat, i: Inst)
    requires IsRun(states, actions) && k < |states| && i in states[k].residents && states[k].residents[i].timerActive
    ensures var s, r := states[k], states[k].residents[i];
            && r.grants == {} && !r.draining && !r.stopped && r.ttl > 0
            && (r.armed || exists t :: t in s.tasks && s.tasks[t] == IdleCallback(i))
  {
    Reachable(states, actions, k);
    InvInst(states[k], i);
    hide IsRun, Inv;
  }

  /** No idle Instance is forgotten: with a time to live, no slot held and nobody draining it,
      its timer is active or a drain of it is about to start. */
  lemma TimerCovers(states: seq<State>, actions: seq<Action>, k: nat, i: Inst)
    requires IsRun(states, actions) && k < |states| && i in states[k].residents
    requires var r := states[k].residents[i]; r.ttl > 0 && r.grants == {} && !r.draining && !r.stopped
    ensures var s := states[k];
            s.residents[i].timerActive || exists t :: t in s.tasks && s.tasks[t].Drain? && s.tasks[t].i == i
  {
    Reachable(states, actions, k);
    InvInst(states[k], i);
    hide IsRun, Inv;
    var s, r := states[k], states[k].residents[i];
    if !r.timerActive {
      assert s.tasks[r.ledger.idler.value].Drain?;
    }
  }

  // ----- Followers

  /** A follower is handed the loaded Instance without a slot exactly when the load succeeded and
      its entry is already gone. Such an Instance admits nobody: it is draining, stopped or dead,
      and nothing keeps a drain from stopping it under the follower. */
  lemma SlotlessFollower(states: seq<State>, actions: seq<Action>, k: nat, t: Task)
    requires IsRun(states, actions) && k < |actions| && actions[k] == Request(FollowReady(t))
    ensures t in states[k].tasks && states[k].tasks[t].Joined? && Ready(states[k], states[k].tasks[t].l)
    ensures var s, s', pc := states[k], states[k + 1], states[k].tasks[t];
            && t in s'.tasks
            && (s'.tasks[t].Slotless? <==> s.loads[pc.l].inst.Some? && pc.m !in s.instances)
            && (s'.tasks[t].Slotless? ==>
                  var i := s'.tasks[t].i; s.loads[pc.l].inst == Some(i) && Blocked(s', i) && t !in s'.residents[i].grants)
  {
    var s, s' := states[k], states[k + 1];
    assert RequestEnabled(s, FollowReady(t)) && s' == ApplyRequest(s, FollowReady(t));
    Reachable(states, actions, k + 1);
    hide IsRun;
    if s'.tasks[t].Slotless? {
      NoSlot(s', t);
    }
  }

  lemma NoSlot(s: State, t: Task)
    requires Inv(s) && t in s.tasks && s.tasks[t].Slotless?
    ensures Blocked(s, s.tasks[t].i) && t !in s.residents[s.tasks[t].i].grants
  {
    InvPc(s, t);
    InvInst(s, s.tasks[t].i);
  }

  // ----- Shutdown

  /** Once `closed` is set it stays set, nothing is registered or loaded any more, a load in
      flight ends without an Instance, and outside the section of `Close` the registry is empty.
      A process that was not registered by then is still with its loader or was told to stop. */
  lemma ShutdownIsFinal(states: seq<State>, actions: seq<Action>, j: nat, k: nat)
    requires IsRun(states, actions) && j <= k < |states| && states[j].closed
    ensures states[k].closed
    ensures states[k].instances == map[] || Closing(states[k])
    ensures states[k].loads.Keys == states[j].loads.Keys && states[k].residents.Keys == states[j].residents.Keys
    ensures forall l | l in states[j].loads && !states[j].loads[l].ready :: states[k].loads[l].inst.None?
    ensures forall i | i in states[k].alive && i !in states[j].residents :: i in states[k].stopIssued || WithLoader(states[k], i)
  {
    Later(states, actions, j, k);
    Reachable(states, actions, j);
    Reachable(states, actions, k);
    InvRegistry(states[k]);
    hide IsRun;
    forall l | l in states[j].loads && !states[j].loads[l].ready
      ensures states[k].loads[l].inst.None?
    {
      InvLoad(states[j], l);
      assert LoadOnward(states[j], states[k], l);
    }
    forall i | i in states[k].alive && i !in states[j].residents
      ensures i in states[k].stopIssued || WithLoader(states[k], i)
    {
      UnregisteredWithLoader(states[k], i);
    }
  }

  // ----- Cancellation

  /** No load is cancelled in this step. */
  ghost predicate AbandonKept(s: State, s': State) {
    forall l | l in s.loads && l in s'.loads ::
      s'.loads[l].abandoned == s.loads[l].abandoned && s'.loads[l].evicted == s.loads[l].evicted
  }

  lemma AbandonStep(s: State, a: Action)
    requires Enabled(s, a) && !(a.Request? && a.request.CallerDeparts?) && !(a.Evicts? && a.evict.EvictSample?)
    ensures AbandonKept(s, Apply(s, a))
  {
    hide EntriesKept, AbandonKept, EnvEnabled, RequestEnabled, LoaderEnabled, SweepEnabled, DrainsEnabled, EvictsEnabled;
    hide ApplyEnv, ApplyRequest, ApplyLoader, ApplySweep, ApplyDrains, ApplyEvicts;
    match a
    case Env(act) => EnvEntries(s, act);
    case Request(act) => RequestAbandon(s, act);
    case Loader(act) => LoaderAbandon(s, act);
    case Sweep(act) => SweepEntries(s, act);
    case Drains(act) => DrainAbandon(s, act);
    case Evicts(act) => EvictAbandon(s, act);
  }

  lemma LoaderAbandon(s: State, a: LoadAction)
    requires LoaderEnabled(s, a)
    ensures AbandonKept(s, ApplyLoader(s, a))
  {
    hide Grant, MarkEvicted, NewResident, Registered, Oldest;
  }

  lemma RequestAbandon(s: State, a: RequestAction)
    requires RequestEnabled(s, a) && !a.CallerDeparts?
    ensures AbandonKept(s, ApplyRequest(s, a))
  {
    hide Release, Grant, Sleep, MarkStopped, Registered, VerdictFor;
  }

  lemma DrainAbandon(s: State, a: DrainAction)
    requires DrainsEnabled(s, a)
    ensures AbandonKept(s, ApplyDrains(s, a))
  {
    hide DrainPass, IdleCallbackPass;
  }

  lemma EvictAbandon(s: State, a: EvictAction)
    requires EvictsEnabled(s, a) && !a.EvictSample?
    ensures AbandonKept(s, ApplyEvicts(s, a))
  {
  }

  lemma AllLeft(joined: set<Task>, left: set<Task>)
    requires left <= joined
    ensures |left| <= |joined|
    ensures |left| == |joined| ==> left == joined
  {
    assert joined == left + (joined - left);
  }

  /** The task takes the sample of an eviction, and this load is in it. */
  predicate Samples(s: State, a: Action, l: LoadId) {
    && a.Evicts? && a.evict.EvictSample? && a.evict.t in s.tasks && s.tasks[a.evict.t].Evict?
    && s.tasks[a.evict.t].m in s.loading && s.loading[s.tasks[a.evict.t].m] == l
  }

  /** A caller is counted out of this load, and it was the last. */
  predicate LastDeparts(a: Action, s': State, l: LoadId) {
    && a.Request? && a.request.CallerDeparts? && a.request.l == l
    && l in s'.loads && s'.loads[l].left == s'.loads[l].joined
  }

  predicate MarksAs(s: State, a: Action, s': State, l: LoadId) {
    && l in s.loads && l in s'.loads
    && (s'.loads[l].abandoned <==> s.loads[l].abandoned || LastDeparts(a, s', l))
    && (s'.loads[l].evicted <==> s.loads[l].evicted || Samples(s, a, l))
  }

  lemma DepartMarks(s: State, t: Task, k: LoadId, l: LoadId)
    requires RequestEnabled(s, CallerDeparts(t, k)) && l in s.loads
    requires var L := ApplyRequest(s, CallerDeparts(t, k)).loads[k]; L.callers == 0 <==> L.left == L.joined
    ensures MarksAs(s, Request(CallerDeparts(t, k)), ApplyRequest(s, CallerDeparts(t, k)), l)
  {
  }

  lemma SampleMarks(s: State, t: Task, l: LoadId)
    requires EvictsEnabled(s, EvictSample(t)) && l in s.loads
    ensures MarksAs(s, Evicts(EvictSample(t)), ApplyEvicts(s, EvictSample(t)), l)
  {
  }

  lemma KeptMarks(s: State, a: Action, s': State, l: LoadId)
    requires AbandonKept(s, s') && l in s.loads && l in s'.loads
    requires !(a.Request? && a.request.CallerDeparts?) && !(a.Evicts? && a.evict.EvictSample?)
    ensures MarksAs(s, a, s', l)
  {
  }

  /** A load is cancelled exactly by the departure of the last of its callers, when every caller that
      ever joined it has a finished context, and by an eviction that samples it. */
  lemma CancellationIsFair(states: seq<State>, actions: seq<Action>, k: nat, l: LoadId)
    requires IsRun(states, actions) && k < |actions| && l in states[k].loads
    ensures k + 1 < |states| && MarksAs(states[k], actions[k], states[k + 1], l)
    ensures LastDeparts(actions[k], states[k + 1], l) ==>
              states[k + 1].loads[l].callers == 0 && states[k + 1].loads[l].joined <= states[k + 1].finished
  {
    hide Inv, IsRun, Apply, Enabled, MarksAs, AbandonKept;
    RunLength(states, actions);
    RunStep(states, actions, k);
    var s, a, s' := states[k], actions[k], states[k + 1];
    Reachable(states, actions, k + 1);
    LoadStays(states, actions, k, l);
    InvLoad(s', l);
    AllLeft(s'.loads[l].joined, s'.loads[l].left);
    if a.Request? && a.request.CallerDeparts? {
      DepartStep(s, a.request.t, a.request.l, l);
    } else if a.Evicts? && a.evict.EvictSample? {
      SampleStep(s, a.evict.t, l);
    } else {
      AbandonStep(s, a);
      KeptMarks(s, a, s', l);
    }
  }

  lemma LoadStays(states: seq<State>, actions: seq<Action>, k: nat, l: LoadId)
    requires IsRun(states, actions) && k + 1 < |states| && l in states[k].loads
    ensures l in states[k + 1].loads
  {
    Later(states, actions, k, k + 1);
    assert LoadOnward(states[k], states[k + 1], l);
    hide IsRun;
  }

  lemma DepartStep(s: State, t: Task, k: LoadId, l: LoadId)
    requires Inv(s) && Enabled(s, Request(CallerDeparts(t, k))) && l in s.loads
    ensures MarksAs(s, Request(CallerDeparts(t, k)), Apply(s, Request(CallerDeparts(t, k))), l)
  {
    InvLoad(s, k);
    hide Inv, MarksAs;
    var L := s.loads[k];
    assert |L.left + {t}| == |L.left| + 1;
    AllLeft(L.joined, L.left + {t});
    DepartMarks(s, t, k, l);
  }

  lemma SampleStep(s: State, t: Task, l: LoadId)
    requires Enabled(s, Evicts(EvictSample(t))) && l in s.loads
    ensures MarksAs(s, Evicts(EvictSample(t)), Apply(s, Evicts(EvictSample(t))), l)
  {
    hide MarksAs;
    SampleMarks(s, t, l);
  }

  /** The caller count is the number of callers that joined and have not left. */
  lemma CallersCounted(states: seq<State>, actions: seq<Action>, k: nat, l: LoadId)
    requires IsRun(states, actions) && k < |states| && l in states[k].loads
    ensures var L := states[k].loads[l];
            L.left <= L.joined && 0 <= L.callers == |L.joined| - |L.left|
  {
    Reachable(states, actions, k);
    InvLoad(states[k], l);
    AllLeft(states[k].loads[l].joined, states[k].loads[l].left);
  }
}
