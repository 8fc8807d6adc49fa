/** What the lifecycle guarantees in every state of every run. */
module LifecycleTheorems {
  import opened Options
  import opened Residents
  import opened Lifecycle
  import opened LifecycleInvariant
  import opened LifecycleSteps
  import opened LifecycleActions
  import opened LifecycleRequests
  import opened LifecycleLoads
  import opened LifecycleInduction
  import opened LifecycleMonotone

  // ----- Runs

  /** Every state of every run satisfies the invariant. */
  lemma {:induction false} Reachable(states: seq<State>, actions: seq<Action>, k: nat)
    requires IsRun(states, actions) && k < |states|
    ensures Inv(states[k])
  {
    hide Inv, Apply, Enabled, Init;
    if k == 0 {
      InitOk(states[0]);
    } else {
      Reachable(states, actions, k - 1);
      ActionKeeps(states[k - 1], actions[k - 1]);
    }
  }

  /** A step of a run. */
  lemma RunStep(states: seq<State>, actions: seq<Action>, k: nat)
    requires IsRun(states, actions) && k < |actions|
    ensures k + 1 < |states| && Inv(states[k]) && Enabled(states[k], actions[k]) && states[k + 1] == Apply(states[k], actions[k])
  {
    hide Inv, Enabled, Apply, Init;
    Reachable(states, actions, k);
  }

  lemma RunLength(states: seq<State>, actions: seq<Action>)
    requires IsRun(states, actions)
    ensures |states| == |actions| + 1
    ensures states[0].residents == map[] && states[0].tasks == map[]
  {
    hide Enabled, Apply;
  }

  ghost predicate Since(s: State, s': State) {
    && (forall i | i in s.residents :: InstOnward(s, s', i))
    && (forall l | l in s.loads :: LoadOnward(s, s', l))
    && (s.closed ==> s'.closed && s'.loads.Keys == s.loads.Keys && s'.residents.Keys == s.residents.Keys)
    && s.drained <= s'.drained
  }

  lemma SinceStep(s: State, s1: State, s2: State)
    requires Since(s, s1) && Onward(s1, s2)
    ensures Since(s, s2)
  {
    forall i | i in s.residents
      ensures InstOnward(s, s2, i)
    {
      assert InstOnward(s, s1, i) && InstOnward(s1, s2, i);
    }
    forall l | l in s.loads
      ensures LoadOnward(s, s2, l)
    {
      assert LoadOnward(s, s1, l) && LoadOnward(s1, s2, l);
    }
  }

  lemma SinceSelf(s: State)
    ensures Since(s, s)
  {
  }

  /** What held is not taken back, over any stretch of a run. */
  lemma {:induction false} Later(states: seq<State>, actions: seq<Action>, j: nat, k: nat)
    requires IsRun(states, actions) && j <= k < |states|
    ensures Since(states[j], states[k])
    decreases k - j
  {
    hide Inv, Apply, Enabled, Init, Since, Onward;
    if j == k {
      SinceSelf(states[j]);
    } else {
      Later(states, actions, j, k - 1);
      Reachable(states, actions, k - 1);
      ActionOnward(states[k - 1], actions[k - 1]);
      SinceStep(states[j], states[k - 1], states[k]);
    }
  }

  // ----- No ghost process

  /** Some task is about to call `Stop` on the process. */
  ghost predicate HasStopper(s: State, i: Inst) {
    exists t :: t in s.tasks && WillStop(s.tasks[t], i)
  }

  /** Some task is inside a drain of the Instance, and since nobody has stopped it yet, that
      drain or another will. */
  ghost predicate HasDrainer(s: State, i: Inst) {
    i in s.residents && !s.residents[i].stopped && exists t :: t in s.tasks && IsDraining(s.tasks[t], i)
  }

  /** The loader that launched the process has neither published nor stopped it yet. */
  predicate WithLoader(s: State, i: Inst) {
    i in s.owner && s.owner[i] in s.tasks && IsLaunching(s.tasks[s.owner[i]], i)
  }

  /** The process is in the care of a task that stops it or hands it on. */
  ghost predicate Tended(s: State, i: Inst) {
    WithLoader(s, i) || HasStopper(s, i) || HasDrainer(s, i)
  }

  /** An Instance out of the registry is draining with a drainer, or stopped with a stopper,
      unless `Stop` was called or the process is gone. */
  ghost predicate LeftWell(s: State, i: Inst) {
    && Blocked(s, i)
    && (i in s.alive && i !in s.stopIssued ==>
          if s.residents[i].stopped then HasStopper(s, i) else s.residents[i].draining && HasDrainer(s, i))
  }

  lemma StopperIs(s: State, i: Inst, t: Task)
    requires t in s.tasks && WillStop(s.tasks[t], i)
    ensures HasStopper(s, i)
  {
  }

  lemma DrainerIs(s: State, i: Inst, t: Task)
    requires t in s.tasks && IsDraining(s.tasks[t], i) && i in s.residents && !s.residents[i].stopped
    ensures HasDrainer(s, i)
  {
  }

  lemma BlockedLeftWell(s: State, i: Inst)
    requires Inv(s) && Blocked(s, i)
    ensures LeftWell(s, i)
  {
    InvInst(s, i);
    hide Inv, HasStopper, HasDrainer, WillStop, IsDraining;
    if i in s.alive && i !in s.stopIssued {
      if s.residents[i].stopped {
        StopperIs(s, i, s.residents[i].ledger.guardian.value);
      } else {
        DrainerIs(s, i, s.residents[i].ledger.guardian.value);
      }
    }
  }

  lemma UnregisteredWithLoader(s: State, i: Inst)
    requires Inv(s) && i in s.alive && i !in s.residents
    ensures i in s.stopIssued || WithLoader(s, i)
  {
    InvRegistry(s);
    assert ProcOk(s, i);
  }

  /** Every live process is registered, or tended, or `Stop` was already called on it. */
  lemma NoGhostProcess(states: seq<State>, actions: seq<Action>, k: nat, i: Inst)
    requires IsRun(states, actions) && k < |states| && i in states[k].alive
    ensures i in states[k].stopIssued || Registered(states[k], i) || Tended(states[k], i)
  {
    var s := states[k];
    Reachable(states, actions, k);
    hide IsRun, WithLoader, HasStopper, HasDrainer;
    if i !in s.residents {
      UnregisteredWithLoader(s, i);
    } else if !Registered(s, i) {
      InvInst(s, i);
      BlockedLeftWell(s, i);
    }
  }

  /** An entry leaves the registry only when its Instance admits nobody any more: draining with
      a drainer, stopped with a stopper pending or done, or with its process gone. */
  lemma RegistryExit(states: seq<State>, actions: seq<Action>, k: nat, m: Model)
    requires IsRun(states, actions) && k < |actions|
    requires m in states[k].instances && (m !in states[k + 1].instances || states[k + 1].instances[m] != states[k].instances[m])
    ensures LeftWell(states[k + 1], states[k].instances[m])
  {
    var s, s', i := states[k], states[k + 1], states[k].instances[m];
    Reachable(states, actions, k);
    Reachable(states, actions, k + 1);
    EntryOk(s, m);
    ActionOnward(s, actions[k]);
    assert InstOnward(s, s', i);
    hide IsRun, LeftWell, Enabled, Apply;
    InvInst(s', i);
    BlockedLeftWell(s', i);
  }

  // ----- Slots and drains

  /** `activeCount` is the number of tasks that hold a slot, and stays within the slots. */
  lemma SlotsAreHolders(states: seq<State>, actions: seq<Action>, k: nat, i: Inst)
    requires IsRun(states, actions) && k < |states| && i in states[k].residents
    ensures var s, r := states[k], states[k].residents[i];
            && (forall t :: t in r.grants <==> t in s.tasks && s.tasks[t] == Serving(i))
            && 0 <= r.active == |r.grants| <= r.maxSlots
  {
    var s := states[k];
    Reachable(states, actions, k);
    InvInst(s, i);
    hide IsRun;
    forall t
      ensures t in s.residents[i].grants <==> t in s.tasks && s.tasks[t] == Serving(i)
    {
      if t in s.tasks && s.tasks[t] == Serving(i) {
        InvPc(s, t);
      }
    }
  }

  /** `draining` and `stopped` never revert, and an Instance that is draining, stopped or
      dead never grants a slot again. */
  lemma NoGrantAfterBlocked(states: seq<State>, actions: seq<Action>, j: nat, k: nat, i: Inst)
    requires IsRun(states, actions) && j <= k < |states| && i in states[j].residents
    ensures i in states[k].residents
    ensures states[j].residents[i].draining ==> states[k].residents[i].draining
    ensures states[j].residents[i].stopped ==> states[k].residents[i].stopped
    ensures Blocked(states[j], i) ==> Blocked(states[k], i) && states[k].residents[i].grants <= states[j].residents[i].grants
  {
    Later(states, actions, j, k);
    assert InstOnward(states[j], states[k], i);
  }

  lemma StopDrainedFacts(s: State, t: Task)
    requires Inv(s) && t in s.tasks && s.tasks[t].Stopping?
    ensures var i := s.tasks[t].i;
            && i in s.residents && s.residents[i].stopped && s.residents[i].grants == {} && !Registered(s, i) && i !in s.drained
  {
    InvPc(s, t);
  }

  /** When a drain calls `Stop`, no slot is held, the entry is gone, and no slot is granted
      at any later point of the run. */
  lemma DrainStopsIdle(states: seq<State>, actions: seq<Action>, j: nat, k: nat, t: Task)
    requires IsRun(states, actions) && j < |actions| && j <= k < |states| && actions[j] == Drains(StopDrained(t))
    ensures t in states[j].tasks && states[j].tasks[t].Stopping?
    ensures var i := states[j].tasks[t].i;
            && i in states[j].residents && states[j].residents[i].stopped && !Registered(states[j], i)
            && i in states[k].residents && states[k].residents[i].grants == {}
  {
    Reachable(states, actions, j);
    assert DrainsEnabled(states[j], StopDrained(t));
    StopDrainedFacts(states[j], t);
    NoGrantAfterBlocked(states, actions, j, k, states[j].tasks[t].i);
  }

  /** Among any number of drains of one Instance, at most one calls `Stop`. */
  lemma DrainStopsOnce(states: seq<State>, actions: seq<Action>, j: nat, k: nat, t: Task, u: Task)
    requires IsRun(states, actions) && j < k < |actions|
    requires actions[j] == Drains(StopDrained(t)) && actions[k] == Drains(StopDrained(u))
    ensures t in states[j].tasks && states[j].tasks[t].Stopping?
    ensures u in states[k].tasks && states[k].tasks[u].Stopping?
    ensures states[j].tasks[t].i != states[k].tasks[u].i
  {
    Reachable(states, actions, k);
    assert DrainsEnabled(states[j], StopDrained(t));
    assert DrainsEnabled(states[k], StopDrained(u));
    assert states[j + 1] == ApplyDrains(states[j], StopDrained(t));
    Later(states, actions, j + 1, k);
    StopDrainedFacts(states[k], u);
  }

  // ----- Wake-ups

  /** A sleeper that no broadcast has reached sleeps for a reason, and a holder exists whose
      release broadcasts. */
  lemma NoLostWakeup(states: seq<State>, actions: seq<Action>, k: nat, i: Inst)
    requires IsRun(states, actions) && k < |states| && i in states[k].residents
    ensures var s, r := states[k], states[k].residents[i];
            && (forall t | t in r.waiters :: t in s.tasks && s.tasks[t].Asleep? && s.tasks[t].i == i)
            && (forall t | t in r.drainers :: t in s.tasks && s.tasks[t].DrainAsleep? && s.tasks[t].i == i)
            && (r.waiters != {} ==> r.active >= r.maxSlots >= 1 && !r.stopped)
            && (r.drainers != {} ==> r.active > 0 && !r.stopped)
            && (r.waiters + r.drainers != {} ==> exists u :: Releases(s, u, i))
  {
    var s, r := states[k], states[k].residents[i];
    Reachable(states, actions, k);
    InvInst(s, i);
    hide IsRun, Releases;
    if r.waiters + r.drainers != {} {
      assert r.grants != {};
      var u :| u in r.grants;
      HolderReleases(s, u, i);
    }
  }

  /** Task `u` holds a slot of `i`, and giving it back wakes everybody asleep on `i`. */
  ghost predicate Releases(s: State, u: Task, i: Inst) {
    && i in s.residents && u in s.tasks && s.tasks[u] == Serving(i)
    && forall now :: var a := Request(ReleaseSlot(u, now));
                     && Enabled(s, a)
                     && Apply(s, a).residents[i].waiters == {} && Apply(s, a).residents[i].drainers == {}
                     && Apply(s, a).residents[i].active == s.residents[i].active - 1
  }

  lemma HolderServes(s: State, u: Task, i: Inst)
    requires i in s.residents && SleepersOk(s, i) && u in s.residents[i].grants
    ensures u in s.tasks && s.tasks[u] == Serving(i)
  {
  }

  lemma HolderReleases(s: State, u: Task, i: Inst)
    requires i in s.residents && InstOk(s, i) && u in s.residents[i].grants
    ensures Releases(s, u, i)
  {
    hide InstOk, ResidentOk, Release, Evolves, SleepersOk, GuardedOk, TimerOk;
    InstParts(s, i);
    HolderServes(s, u, i);
    forall now: int
      ensures var a := Request(ReleaseSlot(u, now));
              && Enabled(s, a)
              && Apply(s, a).residents[i].waiters == {} && Apply(s, a).residents[i].drainers == {}
              && Apply(s, a).residents[i].active == s.residents[i].active - 1
    {
      ReleaseOk(s.residents[i], u, now);
    }
  }
}
