/** Which actions set the time of last use and the time to live of an Instance, in every run. */
module LifecycleFields {
  import opened Options
  import opened Residents
  import opened Lifecycle
  import opened LifecycleInvariant
  import opened LifecycleSteps
  import opened LifecycleActions
  import opened LifecycleRequests
  import opened LifecycleLoads
  import opened LifecycleInduction
  import opened LifecycleMonotone
  import opened LifecycleTheorems
  import opened LifecycleProgress
  import opened LifecycleEviction

  // ----- One step

  /** The action publishes Instance `i`, or a task takes or gives back a slot of it. */
  predicate Uses(s: State, a: Action, s': State, i: Inst) {
    match a
    case Loader(Publish(t, _, _, _)) => t in s.tasks && s.tasks[t].Settling? && s.tasks[t].i == i
    case Request(Attempt(t, _)) => t in s'.tasks && s'.tasks[t] == Serving(i)
    case Request(ReleaseSlot(t, _)) => t in s.tasks && s.tasks[t] == Serving(i)
    case _ => false
  }

  /** The time at which it does. */
  function UseTime(a: Action): int {
    match a
    case Loader(Publish(_, _, _, now)) => now
    case Request(Attempt(_, now)) => now
    case Request(ReleaseSlot(_, now)) => now
    case _ => 0
  }

  /** What a step does to an Instance that was registered before. */
  predicate FieldsAs(s: State, a: Action, s': State, i: Inst) {
    && i in s.residents && i in s'.residents
    && SameSlots(s.residents[i], s'.residents[i])
    && s'.residents[i].lastUsed == (if Uses(s, a, s', i) then UseTime(a) else s.residents[i].lastUsed)
    && s'.residents[i].ttl == (if a.Env? && a.env.ChangeTtl? && a.env.i == i then a.env.d else s.residents[i].ttl)
  }

  /** Every Instance has a slot. */
  predicate Slotted(s: State) {
    forall i | i in s.residents :: 1 <= s.residents[i].maxSlots
  }

  lemma InvSlotted(s: State)
    requires Inv(s)
    ensures Slotted(s)
  {
    forall i | i in s.residents
      ensures 1 <= s.residents[i].maxSlots
    {
      ResidentIsOk(s, i);
    }
  }

  lemma SameFields(s: State, a: Action, s': State, i: Inst)
    requires i in s.residents && s'.residents == s.residents && !Uses(s, a, s', i) && !(a.Env? && a.env.ChangeTtl?)
    ensures FieldsAs(s, a, s', i)
  {
  }

  /** A section of Instance `j` that neither uses it nor sets its time to live. */
  lemma TouchFields(s: State, a: Action, s': State, j: Inst, r: Resident, i: Inst)
    requires i in s.residents && j in s.residents && s'.residents == s.residents[j := r] && SameTimes(s.residents[j], r)
    requires !Uses(s, a, s', i) && !(a.Env? && a.env.ChangeTtl?)
    ensures FieldsAs(s, a, s', i)
  {
  }

  lemma TtlFields(s: State, j: Inst, d: int, i: Inst)
    requires j in s.residents && ResidentOk(s.residents[j]) && i in s.residents
    ensures FieldsAs(s, Env(ChangeTtl(j, d)), ApplyEnv(s, ChangeTtl(j, d)), i)
  {
    TtlSet(s.residents[j], d);
    hide SetTtl, ResidentOk;
  }

  lemma EnvFields(s: State, a: EnvAction, i: Inst)
    requires Slotted(s) && EnvEnabled(s, a) && i in s.residents
    requires forall j | j in s.residents :: ResidentOk(s.residents[j])
    ensures FieldsAs(s, Env(a), ApplyEnv(s, a), i)
  {
    hide FieldsAs, SetTtl, TimerFires, Broadcast, ResidentOk, SameTimes;
    var s' := ApplyEnv(s, a);
    match a
    case FireTimer(t, j) =>
      OthersSet(s.residents[j], t, false);
      TouchFields(s, Env(a), s', j, TimerFires(s.residents[j], t), i);
    case ChangeTtl(j, d) => TtlFields(s, j, d, i);
    case CancelledSleeperBroadcast(t, j) =>
      OthersSet(s.residents[j], t, false);
      TouchFields(s, Env(a), s', j, Broadcast(s.residents[j]), i);
    case _ => SameFields(s, Env(a), s', i);
  }

  lemma AttemptFields(s: State, t: Task, now: int, i: Inst)
    requires RequestEnabled(s, Attempt(t, now)) && i in s.residents && Slotted(s)
    ensures FieldsAs(s, Request(Attempt(t, now)), ApplyRequest(s, Attempt(t, now)), i)
  {
    var j, s' := s.tasks[t].i, ApplyRequest(s, Attempt(t, now));
    hide VerdictFor, Grant, Sleep, FieldsAs, SameTimes;
    OthersSet(s.residents[j], t, false);
    match VerdictFor(s, t)
    case Refused => SameFields(s, Request(Attempt(t, now)), s', i);
    case Full => TouchFields(s, Request(Attempt(t, now)), s', j, Sleep(s.residents[j], t), i);
    case Granted => GrantFields(s, s', t, now, j, i);
  }

  lemma GrantFields(s: State, s': State, t: Task, now: int, j: Inst, i: Inst)
    requires i in s.residents && j in s.residents && 1 <= s.residents[j].maxSlots
    requires s' == Goto(Touch(s, j, Grant(s.residents[j], t, now)), t, Serving(j))
    ensures FieldsAs(s, Request(Attempt(t, now)), s', i)
  {
    UsesSet(s.residents[j], t, now);
    hide Grant;
  }

  lemma ReleaseFields(s: State, t: Task, now: int, i: Inst)
    requires RequestEnabled(s, ReleaseSlot(t, now)) && i in s.residents && 1 <= s.residents[i].maxSlots
    ensures FieldsAs(s, Request(ReleaseSlot(t, now)), ApplyRequest(s, ReleaseSlot(t, now)), i)
  {
    UsesSet(s.residents[i], t, now);
    hide Release;
  }

  lemma EnterDeadFields(s: State, t: Task, l: LoadId, i: Inst)
    requires RequestEnabled(s, EnterDead(t, l)) && i in s.residents && Slotted(s)
    ensures FieldsAs(s, Request(EnterDead(t, l)), ApplyRequest(s, EnterDead(t, l)), i)
  {
    var j := s.instances[s.tasks[t].m];
    hide MarkStopped, Registered, FieldsAs, SameTimes;
    OthersSet(s.residents[j], t, false);
    TouchFields(s, Request(EnterDead(t, l)), ApplyRequest(s, EnterDead(t, l)), j, MarkStopped(s.residents[j]), i);
  }

  lemma QuietRequestFields(s: State, a: RequestAction, i: Inst)
    requires RequestEnabled(s, a) && i in s.residents && !a.Attempt? && !a.ReleaseSlot? && !a.EnterDead?
    ensures FieldsAs(s, Request(a), ApplyRequest(s, a), i)
  {
    hide Registered, FieldsAs;
    SameFields(s, Request(a), ApplyRequest(s, a), i);
  }

  lemma RequestFields(s: State, a: RequestAction, i: Inst)
    requires RequestEnabled(s, a) && i in s.residents && Slotted(s)
    ensures FieldsAs(s, Request(a), ApplyRequest(s, a), i)
  {
    hide FieldsAs, RequestEnabled, ApplyRequest;
    match a
    case Attempt(t, now) => AttemptFields(s, t, now, i);
    case ReleaseSlot(t, now) => ReleaseFields(s, t, now, i);
    case EnterDead(t, l) => EnterDeadFields(s, t, l, i);
    case _ => QuietRequestFields(s, a, i);
  }

  lemma EvictOldestFields(s: State, t: Task, victim: Model, d: Task, i: Inst)
    requires LoaderEnabled(s, EvictOldest(t, victim, d)) && i in s.residents && Slotted(s)
    ensures FieldsAs(s, Loader(EvictOldest(t, victim, d)), ApplyLoader(s, EvictOldest(t, victim, d)), i)
  {
    var j, a := s.instances[victim], Loader(EvictOldest(t, victim, d));
    hide MarkEvicted, Registered, Oldest, FieldsAs, SameTimes;
    OthersSet(s.residents[j], d, false);
    TouchFields(s, a, ApplyLoader(s, a.load), j, MarkEvicted(s.residents[j], d), i);
  }

  lemma LoaderFields(s: State, a: LoadAction, i: Inst)
    requires LoaderEnabled(s, a) && i in s.residents && Slotted(s)
    requires a.Publish? ==> a.t in s.tasks && s.tasks[a.t].Settling? && s.tasks[a.t].i !in s.residents
    ensures FieldsAs(s, Loader(a), ApplyLoader(s, a), i)
  {
    hide LoaderEnabled, ApplyLoader, FieldsAs;
    if a.EvictOldest? {
      EvictOldestFields(s, a.t, a.victim, a.drainer, i);
    } else if a.Publish? {
      PublishFields(s, a, i);
    } else {
      PlainLoaderFields(s, a, i);
    }
  }

  lemma PublishFields(s: State, a: LoadAction, i: Inst)
    requires a.Publish? && LoaderEnabled(s, a) && i in s.residents && s.tasks[a.t].i !in s.residents
    ensures FieldsAs(s, Loader(a), ApplyLoader(s, a), i)
  {
    hide Grant, NewResident;
  }

  lemma PlainLoaderFields(s: State, a: LoadAction, i: Inst)
    requires LoaderEnabled(s, a) && i in s.residents && !a.EvictOldest? && !a.Publish?
    ensures FieldsAs(s, Loader(a), ApplyLoader(s, a), i)
  {
    hide FieldsAs;
    SameFields(s, Loader(a), ApplyLoader(s, a), i);
  }

  lemma SweepFields(s: State, a: SweepAction, i: Inst)
    requires SweepEnabled(s, a) && i in s.residents && 1 <= s.residents[i].maxSlots
    ensures FieldsAs(s, Sweep(a), ApplySweep(s, a), i)
  {
    OthersSet(s.residents[i], 0, false);
    hide MarkStopped;
  }

  lemma DrainsFields(s: State, a: DrainAction, i: Inst)
    requires DrainsEnabled(s, a) && i in s.residents && 1 <= s.residents[i].maxSlots
    ensures FieldsAs(s, Drains(a), ApplyDrains(s, a), i)
  {
    hide DrainPass, IdleCallbackPass, Registered, DrainNext, DrainDecision, AfterDrain;
    if a.DrainStep? {
      DrainSets(s.residents[i], a.t, s.tasks[a.t].Drain?);
    } else {
      OthersSet(s.residents[i], a.t, false);
    }
  }

  lemma EvictsFields(s: State, a: EvictAction, i: Inst)
    requires EvictsEnabled(s, a) && i in s.residents
    ensures FieldsAs(s, Evicts(a), ApplyEvicts(s, a), i)
  {
    hide FieldsAs;
    SameFields(s, Evicts(a), ApplyEvicts(s, a), i);
  }

  /** A step sets the time of last use exactly if it uses the Instance, and the time to live exactly
      if it is such a change; the model and the slots are for good. */
  lemma FieldsStep(s: State, a: Action, i: Inst)
    requires Inv(s) && Enabled(s, a) && i in s.residents
    ensures FieldsAs(s, a, Apply(s, a), i)
  {
    InvSlotted(s);
    forall j | j in s.residents
      ensures ResidentOk(s.residents[j])
    {
      ResidentIsOk(s, j);
    }
    if a.Loader? && a.load.Publish? {
      PublishedIsNew(s, a.load);
    }
    hide Inv, ResidentOk, FieldsAs, EnvEnabled, RequestEnabled, LoaderEnabled, SweepEnabled, DrainsEnabled, EvictsEnabled;
    hide ApplyEnv, ApplyRequest, ApplyLoader, ApplySweep, ApplyDrains, ApplyEvicts;
    match a
    case Env(act) => EnvFields(s, act, i);
    case Request(act) => RequestFields(s, act, i);
    case Loader(act) => LoaderFields(s, act, i);
    case Sweep(act) => SweepFields(s, act, i);
    case Drains(act) => DrainsFields(s, act, i);
    case Evicts(act) => EvictsFields(s, act, i);
  }

  lemma PublishedIsNew(s: State, a: LoadAction)
    requires Inv(s) && a.Publish? && LoaderEnabled(s, a)
    ensures a.t in s.tasks && s.tasks[a.t].Settling? && s.tasks[a.t].i !in s.residents
  {
    InvPc(s, a.t);
    SettlingFacts(s, a.t);
    hide PcOk, Inv;
  }

  // ----- Publication

  /** A new Instance is published by its loader, with the settings it was given, and serves it. */
  lemma PublishSets(s: State, t: Task, ttl: int, slots: int, now: int)
    requires Inv(s) && LoaderEnabled(s, Publish(t, ttl, slots, now))
    ensures var s', m, l, i := ApplyLoader(s, Publish(t, ttl, slots, now)), s.tasks[t].m, s.tasks[t].l, s.tasks[t].i;
            && i !in s.residents && i in s'.residents && s'.instances == s.instances[m := i]
            && t in s'.tasks && s'.tasks[t] == Serving(i) && l in s'.loads && s'.loads[l].ready && s'.loads[l].inst == Some(i)
            && var r := s'.residents[i];
               && r.model == m && r.ttl == ttl && r.lastUsed == now && r.maxSlots == (if slots > 0 then slots else 1)
               && r.active == 1 && r.grants == {t} && !r.draining && !r.stopped && !r.timerActive
  {
    hide Inv, Grant, NewResident, ResidentOk;
    PublishedIsNew(s, Publish(t, ttl, slots, now));
    PublishedRecord(s.tasks[t].m, t, ttl, slots, now);
    PublishedTimes(s.tasks[t].m, t, ttl, slots, now);
  }

  lemma PublishedTimes(m: Model, t: Task, ttl: int, slots: int, now: int)
    ensures var r := Grant(NewResident(m, ttl, slots, now), t, now);
            r.ttl == ttl && r.lastUsed == now && r.maxSlots == if slots > 0 then slots else 1
  {
  }

  /** An Instance that a step makes known is published by it. */
  lemma NewIsPublished(s: State, a: Action, i: Inst)
    requires Inv(s) && Enabled(s, a) && i !in s.residents && i in Apply(s, a).residents
    ensures a.Loader? && a.load.Publish? && a.load.t in s.tasks && s.tasks[a.load.t].Settling? && s.tasks[a.load.t].i == i
    ensures Apply(s, a).residents[i].lastUsed == a.load.now && Apply(s, a).residents[i].ttl == a.load.ttl
  {
    InvRegistry(s);
    hide Inv, EnvEnabled, RequestEnabled, LoaderEnabled, SweepEnabled, DrainsEnabled, EvictsEnabled;
    hide ApplyEnv, ApplyRequest, ApplyLoader, ApplySweep, ApplyDrains, ApplyEvicts;
    match a
    case Env(act) => EnvKnown(s, act);
    case Request(act) => RequestKnown(s, act);
    case Loader(act) =>
      LoaderKnown(s, act);
      if act.Publish? {
        PublishSets(s, act.t, act.ttl, act.slots, act.now);
        PublishedIsNew(s, act);
        PublishedOnly(s, act, i);
      }
    case Sweep(act) => SweepKnown(s, act);
    case Drains(act) => DrainsKnown(s, act);
    case Evicts(act) => EvictsKnown(s, act);
  }

  lemma PublishedOnly(s: State, a: LoadAction, i: Inst)
    requires a.Publish? && LoaderEnabled(s, a) && i in ApplyLoader(s, a).residents && i !in s.residents
    ensures i == s.tasks[a.t].i
  {
    hide Grant, NewResident;
  }

  lemma EnvKnown(s: State, a: EnvAction)
    requires EnvEnabled(s, a)
    ensures ApplyEnv(s, a).residents.Keys == s.residents.Keys
  {
    hide SetTtl, TimerFires, Broadcast;
  }

  lemma RequestKnown(s: State, a: RequestAction)
    requires RequestEnabled(s, a)
    ensures ApplyRequest(s, a).residents.Keys == s.residents.Keys
  {
    hide RequestEnabled, ApplyRequest;
    match a
    case Attempt(t, now) => AttemptKnown(s, t, now);
    case ReleaseSlot(t, now) => ReleaseKnown(s, t, now);
    case TurnAway(t) => TurnAwayKnown(s, t);
    case EnterDead(t, l) => EnterDeadKnown(s, t, l);
    case _ => PlainKnown(s, a);
  }

  lemma ReleaseKnown(s: State, t: Task, now: int)
    requires RequestEnabled(s, ReleaseSlot(t, now))
    ensures ApplyRequest(s, ReleaseSlot(t, now)).residents.Keys == s.residents.Keys
  {
    hide Release;
  }

  lemma TurnAwayKnown(s: State, t: Task)
    requires RequestEnabled(s, TurnAway(t))
    ensures ApplyRequest(s, TurnAway(t)).residents.Keys == s.residents.Keys
  {
    hide MarkStopped, Registered;
  }

  lemma EnterDeadKnown(s: State, t: Task, l: LoadId)
    requires RequestEnabled(s, EnterDead(t, l))
    ensures ApplyRequest(s, EnterDead(t, l)).residents.Keys == s.residents.Keys
  {
    hide MarkStopped, Registered;
  }

  lemma PlainKnown(s: State, a: RequestAction)
    requires RequestEnabled(s, a) && !a.Attempt? && !a.ReleaseSlot? && !a.TurnAway? && !a.EnterDead?
    ensures ApplyRequest(s, a).residents.Keys == s.residents.Keys
  {
  }

  lemma AttemptKnown(s: State, t: Task, now: int)
    requires RequestEnabled(s, Attempt(t, now))
    ensures ApplyRequest(s, Attempt(t, now)).residents.Keys == s.residents.Keys
  {
    hide VerdictFor, Grant, Sleep;
    match VerdictFor(s, t)
    case Refused =>
    case Full =>
    case Granted =>
  }

  lemma LoaderKnown(s: State, a: LoadAction)
    requires LoaderEnabled(s, a)
    ensures !a.Publish? ==> ApplyLoader(s, a).residents.Keys == s.residents.Keys
  {
    hide MarkEvicted, Registered, Oldest, Grant, NewResident;
  }

  lemma SweepKnown(s: State, a: SweepAction)
    requires SweepEnabled(s, a)
    ensures ApplySweep(s, a).residents.Keys == s.residents.Keys
  {
    hide MarkStopped;
  }

  lemma DrainsKnown(s: State, a: DrainAction)
    requires DrainsEnabled(s, a)
    ensures ApplyDrains(s, a).residents.Keys == s.residents.Keys
  {
    hide DrainPass, IdleCallbackPass, Registered, DrainNext, DrainDecision, AfterDrain;
  }

  lemma EvictsKnown(s: State, a: EvictAction)
    requires EvictsEnabled(s, a)
    ensures ApplyEvicts(s, a).residents.Keys == s.residents.Keys
  {
  }

  // ----- Over runs

  /** Step `n` of the run uses Instance `i`. */
  predicate UsedAt(states: seq<State>, actions: seq<Action>, n: nat, i: Inst) {
    n < |actions| && n + 1 < |states| && Uses(states[n], actions[n], states[n + 1], i)
  }

  /** Step `n` is the last use of `i` before state `k`, at this time. */
  ghost predicate LastUse(states: seq<State>, actions: seq<Action>, n: nat, k: nat, i: Inst, time: int) {
    && n < k < |states| && UsedAt(states, actions, n, i) && UseTime(actions[n]) == time
    && forall n' | n < n' < k :: !UsedAt(states, actions, n', i)
  }

  /** In every state the recorded time of last use is the time of the last use. */
  lemma {:induction false} LastUsedIsLastUse(states: seq<State>, actions: seq<Action>, k: nat, i: Inst) returns (n: nat)
    requires IsRun(states, actions) && k < |states| && i in states[k].residents
    ensures LastUse(states, actions, n, k, i, states[k].residents[i].lastUsed)
    decreases k
  {
    hide Inv, IsRun, Enabled, Apply, Uses, FieldsAs;
    RunLength(states, actions);
    RunStep(states, actions, k - 1);
    var s, a := states[k - 1], actions[k - 1];
    if i !in s.residents {
      NewIsPublished(s, a, i);
      PublishUses(s, a, states[k], i);
      return k - 1;
    }
    FieldsStep(s, a, i);
    StepTime(s, a, states[k], i);
    if Uses(s, a, states[k], i) {
      return k - 1;
    }
    n := LastUsedIsLastUse(states, actions, k - 1, i);
  }

  lemma PublishUses(s: State, a: Action, s': State, i: Inst)
    requires a.Loader? && a.load.Publish? && a.load.t in s.tasks && s.tasks[a.load.t].Settling? && s.tasks[a.load.t].i == i
    ensures Uses(s, a, s', i) && UseTime(a) == a.load.now
  {
  }

  lemma StepTime(s: State, a: Action, s': State, i: Inst)
    requires FieldsAs(s, a, s', i)
    ensures i in s'.residents && s'.residents[i].lastUsed == if Uses(s, a, s', i) then UseTime(a) else s.residents[i].lastUsed
  {
  }

  /** A change of the time to live takes effect in its step: the time is set, and the timer of an
      idle Instance runs exactly if the time is positive. */
  lemma TtlTakesEffect(states: seq<State>, actions: seq<Action>, k: nat, i: Inst, d: int)
    requires IsRun(states, actions) && k < |actions| && actions[k] == Env(ChangeTtl(i, d))
    ensures i in states[k].residents && i in states[k + 1].residents
    ensures var r, r' := states[k].residents[i], states[k + 1].residents[i];
            && r'.ttl == d
            && (if r.grants == {} && !r.draining && !r.stopped then r'.timerActive == r'.armed == (d > 0)
                else r'.timerActive == r.timerActive && r'.armed == r.armed)
  {
    Reachable(states, actions, k);
    assert EnvEnabled(states[k], ChangeTtl(i, d)) && states[k + 1] == ApplyEnv(states[k], ChangeTtl(i, d));
    ResidentIsOk(states[k], i);
    hide Inv, IsRun, SetTtl, ResidentOk;
    TtlSet(states[k].residents[i], d);
  }

  predicate SetsTtl(a: Action, i: Inst) {
    a.Env? && a.env.ChangeTtl? && a.env.i == i
  }

  /** Nothing else sets it: between two states, an Instance has the time to live it had unless a step
      in between changed it. */
  lemma {:induction false} TtlStays(states: seq<State>, actions: seq<Action>, j: nat, k: nat, i: Inst)
    requires IsRun(states, actions) && j <= k < |states| && i in states[j].residents
    requires forall n | j <= n < k :: n < |actions| && !SetsTtl(actions[n], i)
    ensures i in states[k].residents && states[k].residents[i].ttl == states[j].residents[i].ttl
    decreases k - j
  {
    hide Inv, IsRun, Enabled, Apply, FieldsAs, SetsTtl;
    RunLength(states, actions);
    if j < k {
      TtlStays(states, actions, j, k - 1, i);
      RunStep(states, actions, k - 1);
      FieldsStep(states[k - 1], actions[k - 1], i);
      StepTtl(states[k - 1], actions[k - 1], states[k], i);
    }
  }

  lemma StepTtl(s: State, a: Action, s': State, i: Inst)
    requires FieldsAs(s, a, s', i) && !SetsTtl(a, i)
    ensures i in s'.residents && s'.residents[i].ttl == s.residents[i].ttl
  {
  }

  /** What the cap evicts, by uses: of the entries under the one hold of the lock, each with the time
      of its last use when it was read, the victim has the least. */
  lemma CapEvictsLeastUsed(states: seq<State>, actions: seq<Action>, k: nat, t: Task, victim: Model, d: Task)
      returns (ages: map<Model, int>)
    requires IsRun(states, actions) && k < |actions| && actions[k] == Loader(EvictOldest(t, victim, d))
    ensures ages.Keys == states[k].instances.Keys && victim in ages && forall id | id in ages :: ages[victim] <= ages[id]
    ensures forall id | id in ages :: exists n: nat, u: nat :: n < k && states[n].instances == states[k].instances
                                                     && LastUse(states, actions, u, n, states[k].instances[id], ages[id])
  {
    hide IsRun, LastUse, Oldest;
    RunLength(states, actions);
    var j;
    j, ages := CapEvictsOldest(states, actions, k, t, victim, d);
    OldestIs(ages, victim);
    forall id | id in ages
      ensures exists n: nat, u: nat :: n < k && states[n].instances == states[k].instances
                             && LastUse(states, actions, u, n, states[k].instances[id], ages[id])
    {
      var n: nat :| j < n < k && Read(states, actions, n, t, id, ages[id]);
      var u := LastUsedIsLastUse(states, actions, n, states[n].instances[id]);
      assert states[n].instances == states[k].instances;
    }
  }

  lemma OldestIs(ages: map<Model, int>, victim: Model)
    requires Oldest(ages, victim)
    ensures victim in ages && forall id | id in ages :: ages[victim] <= ages[id]
  {
  }
}
