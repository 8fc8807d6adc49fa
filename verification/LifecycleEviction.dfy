/** Which Instance the cap evicts, over whole runs. */
module LifecycleEviction {
  import opened Options
  import opened Residents
  import opened Lifecycle
  import opened LifecycleInvariant
  import opened LifecycleSteps
  import opened LifecycleActions
  import opened LifecycleRequests
  import opened LifecycleLoads
  import opened LifecycleInduction
  import opened LifecycleMonotone
  import opened LifecycleTheorems
  import opened LifecycleProgress

  /** Nothing happened to a scan of `t` in this step. */
  ghost predicate ScanUntouched(s: State, s': State, t: Task) {
    t in s.tasks && t in s'.tasks && s'.tasks[t] == s.tasks[t] && s'.instances == s.instances
  }

  /** In `s'`, and so in `s` unless `t` moved there, task `t` scans. */
  predicate Scans(s: State, t: Task) {
    t in s.tasks && s.tasks[t].Scanning?
  }

  lemma ScanHolds(s: State, t: Task)
    requires Inv(s) && Scans(s, t)
    ensures s.mu == Some(t)
    ensures forall u | u in s.tasks && HoldsMu(s.tasks[u]) :: u == t
  {
    ScanningFacts(s, t);
    hide Scans;
    forall u | u in s.tasks && HoldsMu(s.tasks[u])
      ensures u == t
    {
      SettlingHoldsMu(s, u);
    }
  }

  lemma EnvScan(s: State, a: EnvAction, t: Task)
    requires EnvEnabled(s, a) && Scans(ApplyEnv(s, a), t)
    ensures ScanUntouched(s, ApplyEnv(s, a), t)
  {
    hide SetTtl, TimerFires;
  }

  lemma EvictsScan(s: State, a: EvictAction, t: Task)
    requires EvictsEnabled(s, a) && Scans(ApplyEvicts(s, a), t)
    ensures ScanUntouched(s, ApplyEvicts(s, a), t)
  {
  }

  lemma RequestScan(s: State, a: RequestAction, t: Task)
    requires RequestEnabled(s, a) && Scans(ApplyRequest(s, a), t) && (Scans(s, t) ==> s.mu.Some?)
    ensures ScanUntouched(s, ApplyRequest(s, a), t)
  {
    hide RequestEnabled, ApplyRequest;
    RequestMoves(s, a);
  }

  lemma DrainsScan(s: State, a: DrainAction, t: Task)
    requires DrainsEnabled(s, a) && Scans(ApplyDrains(s, a), t) && (Scans(s, t) ==> s.mu.Some?)
    ensures ScanUntouched(s, ApplyDrains(s, a), t)
  {
    hide DrainPass, IdleCallbackPass, Registered;
  }

  lemma SweepScan(s: State, a: SweepAction, t: Task)
    requires SweepEnabled(s, a) && Scans(ApplySweep(s, a), t)
    requires Scans(s, t) ==> forall u | u in s.tasks && HoldsMu(s.tasks[u]) :: u == t
    ensures ScanUntouched(s, ApplySweep(s, a), t)
  {
    hide MarkStopped;
  }

  lemma LoaderScan(s: State, a: LoadAction, t: Task)
    requires LoaderEnabled(s, a) && Scans(ApplyLoader(s, a), t) && a != StartScan(t) && !(a.ScanOne? && a.t == t)
    requires Scans(s, t) ==> forall u | u in s.tasks && HoldsMu(s.tasks[u]) :: u == t
    ensures ScanUntouched(s, ApplyLoader(s, a), t)
  {
    hide LoaderEnabled, ApplyLoader;
    if a.EvictOldest? {
      LockingActor(s, a);
      EvictingScan(s, a.t, a.victim, a.drainer, t);
    } else if a.Publish? {
      LockingActor(s, a);
      PublishingScan(s, a, t);
    } else {
      PlainScan(s, a, t);
    }
  }

  lemma LockingActor(s: State, a: LoadAction)
    requires LoaderEnabled(s, a) && (a.EvictOldest? || a.Publish?)
    ensures a.t in s.tasks && HoldsMu(s.tasks[a.t])
  {
    hide Oldest;
  }

  lemma EvictingScan(s: State, u: Task, victim: Model, d: Task, t: Task)
    requires LoaderEnabled(s, EvictOldest(u, victim, d)) && (Scans(s, t) ==> u == t)
    ensures !Scans(ApplyLoader(s, EvictOldest(u, victim, d)), t)
  {
    hide MarkEvicted, Registered, Oldest;
  }

  lemma PublishingScan(s: State, a: LoadAction, t: Task)
    requires a.Publish? && LoaderEnabled(s, a) && (Scans(s, t) ==> a.t == t)
    ensures !Scans(ApplyLoader(s, a), t)
  {
    hide Grant, NewResident;
  }

  lemma PlainScan(s: State, a: LoadAction, t: Task)
    requires LoaderEnabled(s, a) && Scans(ApplyLoader(s, a), t) && a != StartScan(t) && !(a.ScanOne? && a.t == t)
    requires !a.EvictOldest? && !a.Publish?
    ensures ScanUntouched(s, ApplyLoader(s, a), t)
  {
    hide LoaderEnabled, ApplyLoader;
    if a.SettleError? || a.SettleClosed? || a.Reject? {
      SettlingScan(s, a, t);
    } else {
      MovingScan(s, a, t);
    }
  }

  lemma SettlingScan(s: State, a: LoadAction, t: Task)
    requires LoaderEnabled(s, a) && Scans(ApplyLoader(s, a), t) && (a.SettleError? || a.SettleClosed? || a.Reject?)
    ensures ScanUntouched(s, ApplyLoader(s, a), t)
  {
  }

  lemma MovingScan(s: State, a: LoadAction, t: Task)
    requires LoaderEnabled(s, a) && Scans(ApplyLoader(s, a), t) && a != StartScan(t) && !(a.ScanOne? && a.t == t)
    requires a.Launch? || a.StopProbe? || a.SettleRoom? || a.StartScan? || a.ScanOne? || a.Discard?
    ensures ScanUntouched(s, ApplyLoader(s, a), t)
  {
  }

  lemma StepScan(s: State, a: Action, t: Task)
    requires Inv(s) && Enabled(s, a) && Scans(Apply(s, a), t) && a != Loader(StartScan(t))
    requires !(a.Loader? && a.load.ScanOne? && a.load.t == t)
    ensures ScanUntouched(s, Apply(s, a), t)
  {
    if Scans(s, t) {
      ScanHolds(s, t);
    }
    hide Inv, Scans, ScanUntouched, EnvEnabled, RequestEnabled, LoaderEnabled, SweepEnabled, DrainsEnabled, EvictsEnabled;
    hide ApplyEnv, ApplyRequest, ApplyLoader, ApplySweep, ApplyDrains, ApplyEvicts;
    match a
    case Env(act) => EnvScan(s, act, t);
    case Request(act) => RequestScan(s, act, t);
    case Loader(act) => LoaderScan(s, act, t);
    case Sweep(act) => SweepScan(s, act, t);
    case Drains(act) => DrainsScan(s, act, t);
    case Evicts(act) => EvictsScan(s, act, t);
  }

  /** At step `n`, `t` read this value of `lastUsed` off the Instance registered for `id`. */
  ghost predicate Read(states: seq<State>, actions: seq<Action>, n: nat, t: Task, id: Model, age: int) {
    && n < |actions| && n < |states| && actions[n] == Loader(ScanOne(t, id))
    && id in states[n].instances && states[n].instances[id] in states[n].residents
    && age == states[n].residents[states[n].instances[id]].lastUsed
  }

  /** From step `j` to state `k` task `t` held the registry lock for a scan, the registry did not
      change, and every age it carries was read off the registry in between. */
  ghost predicate Scanned(states: seq<State>, actions: seq<Action>, j: nat, k: nat, t: Task) {
    && j < k < |states| && j < |actions| && actions[j] == Loader(StartScan(t))
    && (forall n | j <= n <= k :: states[n].instances == states[j].instances)
    && (forall n | j < n <= k :: states[n].mu == Some(t) && Scans(states[n], t))
    && Scans(states[k], t)
    && (forall id | id in states[k].tasks[t].ages ::
          exists n :: j < n < k && Read(states, actions, n, t, id, states[k].tasks[t].ages[id]))
  }

  lemma ScanBegins(states: seq<State>, actions: seq<Action>, k: nat, t: Task)
    requires IsRun(states, actions) && 0 < k < |states| && Scans(states[k], t) && actions[k - 1] == Loader(StartScan(t))
    ensures Scanned(states, actions, k - 1, k, t)
  {
    Reachable(states, actions, k);
    ScanHolds(states[k], t);
    hide Inv;
    assert states[k] == ApplyLoader(states[k - 1], StartScan(t));
  }

  lemma ScanReads(s: State, t: Task, id: Model)
    requires LoaderEnabled(s, ScanOne(t, id))
    ensures Scans(s, t) && id in s.instances && s.instances[id] in s.residents
    ensures var s' := ApplyLoader(s, ScanOne(t, id));
            && s'.instances == s.instances && Scans(s', t)
            && s'.tasks[t].ages == s.tasks[t].ages[id := s.residents[s.instances[id]].lastUsed]
  {
  }

  lemma ScanGoesOn(states: seq<State>, actions: seq<Action>, j: nat, k: nat, t: Task)
    requires IsRun(states, actions) && k < |actions| && k + 1 < |states| && Scanned(states, actions, j, k, t) && Scans(states[k + 1], t)
    requires ScanUntouched(states[k], states[k + 1], t)
    ensures Scanned(states, actions, j, k + 1, t)
  {
    hide Inv, IsRun, Read;
    Reachable(states, actions, k + 1);
    ScanHolds(states[k + 1], t);
  }

  lemma ScanReadsOn(states: seq<State>, actions: seq<Action>, j: nat, k: nat, t: Task, id: Model)
    requires IsRun(states, actions) && k < |actions| && k + 1 < |states| && Scanned(states, actions, j, k, t) && Scans(states[k + 1], t)
    requires actions[k] == Loader(ScanOne(t, id))
    ensures Scanned(states, actions, j, k + 1, t)
  {
    hide Inv, IsRun, LoaderEnabled, ApplyLoader;
    Reachable(states, actions, k + 1);
    ScanHolds(states[k + 1], t);
    StepIs(states, actions, k, ScanOne(t, id));
    ScanReads(states[k], t, id);
    MoreRead(states, actions, j, k, t, id, states[k].tasks[t].ages, states[k + 1].tasks[t].ages);
    hide Read;
  }

  lemma StepIs(states: seq<State>, actions: seq<Action>, k: nat, a: LoadAction)
    requires IsRun(states, actions) && k < |actions| && actions[k] == Loader(a)
    ensures LoaderEnabled(states[k], a) && states[k + 1] == ApplyLoader(states[k], a)
  {
    hide LoaderEnabled, ApplyLoader;
  }

  lemma MoreRead(states: seq<State>, actions: seq<Action>, j: nat, k: nat, t: Task, id: Model,
                 ages: map<Model, int>, ages': map<Model, int>)
    requires j < k && id in ages' && ages' == ages[id := ages'[id]] && Read(states, actions, k, t, id, ages'[id])
    requires forall m | m in ages :: exists n :: j < n < k && Read(states, actions, n, t, m, ages[m])
    ensures forall m | m in ages' :: exists n :: j < n < k + 1 && Read(states, actions, n, t, m, ages'[m])
  {
    hide Read;
    forall m | m in ages'
      ensures exists n :: j < n < k + 1 && Read(states, actions, n, t, m, ages'[m])
    {
      if m != id {
        var n :| j < n < k && Read(states, actions, n, t, m, ages[m]);
        assert Read(states, actions, n, t, m, ages'[m]);
      }
    }
  }

  lemma {:induction false} ScanHistory(states: seq<State>, actions: seq<Action>, k: nat, t: Task) returns (j: nat)
    requires IsRun(states, actions) && k < |states| && Scans(states[k], t)
    ensures Scanned(states, actions, j, k, t)
    decreases k
  {
    assert k > 0;
    var s, a := states[k - 1], actions[k - 1];
    assert Enabled(s, a) && states[k] == Apply(s, a);
    if a == Loader(StartScan(t)) {
      ScanBegins(states, actions, k, t);
      return k - 1;
    }
    if a.Loader? && a.load.ScanOne? && a.load.t == t {
      ScanReads(s, t, a.load.id);
      hide Inv, Enabled, Apply, Init, IsRun, Scanned, Scans;
      j := ScanHistory(states, actions, k - 1, t);
      ScanReadsOn(states, actions, j, k - 1, t, a.load.id);
    } else {
      Reachable(states, actions, k - 1);
      StepScan(s, a, t);
      hide Inv, Enabled, Apply, Init, IsRun, Scanned;
      j := ScanHistory(states, actions, k - 1, t);
      ScanGoesOn(states, actions, j, k - 1, t);
    }
  }

  lemma EvictsOne(s: State, t: Task, victim: Model, d: Task)
    requires Inv(s) && LoaderEnabled(s, EvictOldest(t, victim, d))
    ensures Scans(s, t) && s.tasks[t].ages.Keys == s.instances.Keys && Oldest(s.tasks[t].ages, victim)
    ensures victim in s.instances
    ensures var s' := ApplyLoader(s, EvictOldest(t, victim, d));
            && s'.instances == s.instances - {victim} && Blocked(s', s.instances[victim])
            && d in s'.tasks && s'.tasks[d] == Drain(s.instances[victim], ThenReturn)
  {
    hide Inv, MarkEvicted, Oldest;
    EntryOk(s, victim);
    SectionsOnward();
  }

  /** The cap evicts the entry that was least recently used. The loader held the registry lock
      from step `j` on, read `lastUsed` once off every Instance then and still registered, and
      the victim's is the least. The victim alone leaves, with a drain of its own. */
  lemma CapEvictsOldest(states: seq<State>, actions: seq<Action>, k: nat, t: Task, victim: Model, d: Task)
      returns (j: nat, ages: map<Model, int>)
    requires IsRun(states, actions) && k < |actions| && actions[k] == Loader(EvictOldest(t, victim, d))
    ensures j < k && actions[j] == Loader(StartScan(t))
    ensures forall n | j <= n <= k :: states[n].instances == states[k].instances
    ensures forall n | j < n <= k :: states[n].mu == Some(t)
    ensures ages.Keys == states[k].instances.Keys && Oldest(ages, victim)
    ensures forall id | id in ages :: exists n :: j < n < k && Read(states, actions, n, t, id, ages[id])
    ensures victim in states[k].instances && states[k + 1].instances == states[k].instances - {victim}
    ensures var i := states[k].instances[victim];
            Blocked(states[k + 1], i) && d in states[k + 1].tasks && states[k + 1].tasks[d] == Drain(i, ThenReturn)
  {
    assert LoaderEnabled(states[k], EvictOldest(t, victim, d)) && states[k + 1] == ApplyLoader(states[k], EvictOldest(t, victim, d));
    Reachable(states, actions, k);
    hide Inv, LoaderEnabled, ApplyLoader, Read, Oldest;
    EvictsOne(states[k], t, victim, d);
    j := ScanHistory(states, actions, k, t);
    ages := states[k].tasks[t].ages;
  }
}
