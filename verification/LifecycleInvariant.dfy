/** The inductive invariant of the lifecycle, and the general argument that a step which
    respects `TasksFrame`, `InstsFrame` and `LoadsFrame` keeps everything that it does not touch. */
module LifecycleInvariant {
  import opened Options
  import opened Residents
  import opened Lifecycle

  // ----- What a program counter commits its task to

  predicate HoldsMu(pc: Pc) {
    pc.Scanning? || pc.Settling? || pc.Sweeping?
  }

  /** The task will call `Stop` on the process without looking again. */
  predicate WillStop(pc: Pc, i: Inst) {
    match pc
    case Unregistering(j, _) => i == j
    case Stopping(j, _) => i == j
    case Sweeping(toStop, _) => i in toStop
    case Reaping(toStop, _) => i in toStop
    case _ => false
  }

  /** The task is inside a drain that has not yet decided. */
  predicate IsDraining(pc: Pc, i: Inst) {
    match pc
    case Drain(j, _) => i == j
    case DrainAsleep(j, _) => i == j
    case _ => false
  }

  /** The task launched the process and has neither published nor stopped it. */
  predicate IsLaunching(pc: Pc, i: Inst) {
    match pc
    case Probing(_, _, j) => i == j
    case Scanning(_, _, j, _) => i == j
    case Settling(_, _, j) => i == j
    case Discarding(j) => i == j
    case _ => false
  }

  /** The task is the loader of `l`, before `ready` is closed. */
  predicate IsLoading(pc: Pc, m: Model, l: LoadId) {
    match pc
    case Launching(m', l') => m == m' && l == l'
    case Probing(m', l', _) => m == m' && l == l'
    case Scanning(m', l', _, _) => m == m' && l == l'
    case Settling(m', l', _) => m == m' && l == l'
    case Sweeping(_, why) => why == ForTuning(m, l)
    case Reaping(_, why) => why == ForTuning(m, l)
    case _ => false
  }

  // ----- The invariant

  predicate LoaderOk(s: State, t: Task, m: Model, l: LoadId)
    requires t in s.tasks
  {
    && l in s.loads && s.loads[l].model == m && s.loads[l].loader == t && !s.loads[l].ready
    && t in s.loads[l].joined
    && (!s.tasks[t].Settling? ==> m in s.loading && s.loading[m] == l)
  }

  predicate ThenOk(s: State, i: Inst, next: Then) {
    match next
    case ThenReturn => true
    case ThenAwait(m, first, load) =>
      first == i && (load.Some? ==> load.value in s.loads && s.loads[load.value].model == m)
    case ThenEvicted(m, sampled, awaited) =>
      && (sampled.Some? ==> sampled.value in s.residents && s.residents[sampled.value].stopped)
      && Ready(s, awaited)
      && (s.loads[awaited].inst.Some? ==> s.loads[awaited].inst.value == i || Blocked(s, s.loads[awaited].inst.value))
  }

  /** What holds whenever task `t` is at its program counter. */
  predicate PcOk(s: State, t: Task)
    requires t in s.tasks
  {
    var pc := s.tasks[t];
    && (HoldsMu(pc) ==> s.mu == Some(t))
    && match pc
       case Acquire(m, i, _) => i in s.residents && s.residents[i].model == m
       case Asleep(m, i, _) => i in s.residents && s.residents[i].model == m
       case TurnedAway(m, i, _) => i in s.residents && s.residents[i].model == m && (t in s.finished || Blocked(s, i))
       case Serving(i) => i in s.residents && t in s.residents[i].grants
       case Slotless(i) => Blocked(s, i)
       case Joined(m, l) => l in s.loads && s.loads[l].model == m && t in s.loads[l].joined
       case Launching(m, l) => LoaderOk(s, t, m, l)
       case Probing(m, l, i) => LoaderOk(s, t, m, l) && i in s.owner && s.owner[i] == t && i !in s.residents
       case Scanning(m, l, i, ages) =>
         && LoaderOk(s, t, m, l) && i in s.owner && s.owner[i] == t && i !in s.residents
         && !s.closed && 0 < s.cap <= |s.instances| && ages.Keys <= s.instances.Keys
       case Settling(m, l, i) =>
         && LoaderOk(s, t, m, l) && i in s.owner && s.owner[i] == t && i !in s.residents
         && !s.closed && m !in s.instances && m !in s.loading && (s.cap > 0 ==> |s.instances| < s.cap)
       case Discarding(i) => i in s.owner && s.owner[i] == t && i !in s.residents
       case Sweeping(toStop, why) => SweepOk(s, t, toStop, why)
       case Reaping(toStop, why) => SweepOk(s, t, toStop, why)
       case IdleCallback(i) => i in s.residents
       case Drain(i, next) => i in s.residents && ThenOk(s, i, next)
       case DrainAsleep(i, next) => i in s.residents && s.residents[i].draining && ThenOk(s, i, next)
       case Unregistering(i, next) => WinnerOk(s, t, i) && ThenOk(s, i, next)
       case Stopping(i, next) => WinnerOk(s, t, i) && ThenOk(s, i, next) && !Registered(s, i)
       case Awaiting(m, sampled, load) =>
         && (sampled.Some? ==> sampled.value in s.residents && s.residents[sampled.value].stopped)
         && (load.Some? ==> load.value in s.loads && s.loads[load.value].model == m)
       case Evicted(m, sampled, load) =>
         && (sampled.Some? ==> sampled.value in s.residents && s.residents[sampled.value].stopped)
         && (load.Some? ==> Ready(s, load.value)
                            && (s.loads[load.value].inst.Some? ==> Blocked(s, s.loads[load.value].inst.value)))
       case _ => true
  }

  /** The one drain that decided to stop the process: no slot is held and none will be. */
  predicate WinnerOk(s: State, t: Task, i: Inst) {
    && i in s.residents && s.residents[i].stopped && s.residents[i].grants == {}
    && s.residents[i].ledger.drainedBy == Some(t) && i !in s.drained
  }

  predicate SweepOk(s: State, t: Task, toStop: set<Inst>, why: Purpose)
    requires t in s.tasks
  {
    && (forall i | i in toStop :: i in s.residents && s.residents[i].stopped)
    && match why
       case ForReset => true
       case ForTuning(m, l) => LoaderOk(s, t, m, l)
       case ForClose(inFlight) => s.closed && forall l | l in inFlight :: l in s.loads && s.loads[l].inst.None?
  }

  /** While the process lives and nobody has called `Stop`, a stopped Instance has a task
      about to call it, and a draining one has a task inside a drain. */
  predicate GuardedOk(s: State, i: Inst)
    requires i in s.residents
  {
    var r := s.residents[i];
    i in s.alive && i !in s.stopIssued ==>
      && (r.stopped ==> r.ledger.guardian.Some? && At(s, r.ledger.guardian.value)
                        && WillStop(s.tasks[r.ledger.guardian.value], i))
      && (r.draining && !r.stopped ==> r.ledger.guardian.Some? && At(s, r.ledger.guardian.value)
                                       && IsDraining(s.tasks[r.ledger.guardian.value], i))
  }

  /** An active timer is backed by the runtime or by a callback under way, and an idle
      Instance with a time to live has an active timer or a drain under way. */
  predicate TimerOk(s: State, i: Inst)
    requires i in s.residents
  {
    var r := s.residents[i];
    && (r.timerActive && !r.armed ==>
          r.ledger.callback.Some? && At(s, r.ledger.callback.value) && s.tasks[r.ledger.callback.value] == IdleCallback(i))
    && (r.ttl > 0 && r.active == 0 && !r.draining && !r.stopped && !r.timerActive ==>
          r.ledger.idler.Some? && At(s, r.ledger.idler.value)
          && s.tasks[r.ledger.idler.value].Drain? && s.tasks[r.ledger.idler.value].i == i)
  }

  predicate SleepersOk(s: State, i: Inst)
    requires i in s.residents
  {
    && (forall u | u in s.residents[i].grants :: u in s.tasks && s.tasks[u] == Serving(i))
    && (forall u | u in s.residents[i].waiters :: u in s.tasks && s.tasks[u].Asleep? && s.tasks[u].i == i)
    && (forall u | u in s.residents[i].drainers :: u in s.tasks && s.tasks[u].DrainAsleep? && s.tasks[u].i == i)
  }

  /** What holds of every Instance that was ever registered. */
  predicate InstOk(s: State, i: Inst)
    requires i in s.residents
  {
    && ResidentOk(s.residents[i])
    && (Registered(s, i) || Blocked(s, i))
    && SleepersOk(s, i) && GuardedOk(s, i) && TimerOk(s, i)
    && (!s.residents[i].stopped ==> s.residents[i].ledger.drainedBy.None?)
    && (i in s.drained ==> s.residents[i].stopped && s.residents[i].grants == {})
  }

  predicate LoadOk(s: State, l: LoadId)
    requires l in s.loads
  {
    var L := s.loads[l];
    && L.left <= L.joined && L.callers == |L.joined| - |L.left|
    && L.left <= s.finished
    && (!L.ready ==>
          && L.inst.None? && At(s, L.loader) && IsLoading(s.tasks[L.loader], L.model, l)
          && forall u | u in L.joined ::
               u in s.tasks && (s.tasks[u] == Joined(L.model, l) || s.tasks[u] == Returned || u == L.loader))
    && (L.inst.Some? ==> L.inst.value in s.residents && s.residents[L.inst.value].model == L.model)
  }

  /** A launched process that was never registered still belongs to its loader. */
  predicate ProcOk(s: State, i: Inst)
    requires i in s.owner
  {
    i in s.alive && i !in s.stopIssued && i !in s.residents ==>
      At(s, s.owner[i]) && IsLaunching(s.tasks[s.owner[i]], i)
  }

  predicate RegistryOk(s: State) {
    && (forall m | m in s.instances ::
          m !in s.loading && s.instances[m] in s.residents && s.residents[s.instances[m]].model == m)
    && (forall m | m in s.loading :: Loads(s, m))
    && (s.cap > 0 ==> |s.instances| <= s.cap)
    && (s.mu.Some? ==> At(s, s.mu.value) && HoldsMu(s.tasks[s.mu.value]))
    && (s.closed ==> s.instances == map[] || Closing(s))
    && s.alive <= s.owner.Keys && s.residents.Keys <= s.owner.Keys && s.drained <= s.residents.Keys
  }

  predicate Loads(s: State, m: Model)
    requires m in s.loading
  {
    s.loading[m] in s.loads && s.loads[s.loading[m]].model == m && !s.loads[s.loading[m]].ready
  }

  /** `Close` is inside its registry section. */
  predicate Closing(s: State) {
    s.mu.Some? && At(s, s.mu.value) && s.tasks[s.mu.value].Sweeping? && s.tasks[s.mu.value].why.ForClose?
  }

  ghost predicate PcsOk(s: State) {
    forall t | t in s.tasks :: PcOk(s, t)
  }

  ghost predicate InstsOk(s: State) {
    forall i | i in s.residents :: InstOk(s, i)
  }

  ghost predicate LoadsOk(s: State) {
    forall l | l in s.loads :: LoadOk(s, l)
  }

  ghost predicate ProcsOk(s: State) {
    forall i | i in s.owner :: ProcOk(s, i)
  }

  ghost predicate Inv(s: State) {
    PcsOk(s) && InstsOk(s) && LoadsOk(s) && ProcsOk(s) && RegistryOk(s)
  }

  // ----- How one step of task `t` may change the state

  predicate LoadEvolves(L: Load, L': Load, t: Task) {
    && L'.model == L.model && L'.loader == L.loader && L.joined <= L'.joined
    && (L.ready ==> L'.ready && L'.inst == L.inst)
    && (!L.ready && L'.ready ==> L.loader == t)
  }

  ghost predicate TasksFrame(s: State, s': State, t: Task) {
    && (forall u | u in s.tasks && u != t :: u in s'.tasks && s'.tasks[u] == s.tasks[u])
    && (forall u | u in s'.tasks && u != t :: u in s.tasks)
    && s.finished <= s'.finished
    && s'.cap == s.cap && (s.closed ==> s'.closed)
    && (s.mu.Some? && s.mu.value != t ==>
          s'.mu == s.mu && s'.instances == s.instances && s'.loading == s.loading && s'.closed == s.closed)
  }

  ghost predicate InstsFrame(s: State, s': State, t: Task) {
    && s.residents.Keys <= s.owner.Keys
    && (forall i | i in s.residents :: i in s'.residents && Evolves(s.residents[i], s'.residents[i], t))
    && (forall i | i in s'.residents && i !in s.residents :: i in s.owner && s.owner[i] == t)
    && (forall i | i in s.owner :: i in s'.owner && s'.owner[i] == s.owner[i] && (i in s'.alive ==> i in s.alive))
    && (forall i | i in s'.drained && i !in s.drained :: i in s.residents && s.residents[i].ledger.drainedBy == Some(t))
    && (forall i | i in s.residents && Registered(s', i) :: Registered(s, i))
    && s.stopIssued <= s'.stopIssued
  }

  ghost predicate LoadsFrame(s: State, s': State, t: Task) {
    && (forall l | l in s.loads :: l in s'.loads && LoadEvolves(s.loads[l], s'.loads[l], t)
                                   && (s.closed && s.loads[l].inst.None? ==> s'.loads[l].inst.None?))
    && (forall m | m in s.loading && s.loading[m] in s.loads && s.loads[s.loading[m]].loader != t ::
          m in s'.loading && s'.loading[m] == s.loading[m])
  }

  // ----- A task that does not move keeps what its program counter promises

  lemma BlockedKept(s: State, s': State, t: Task, i: Inst)
    requires InstsFrame(s, s', t) && Blocked(s, i)
    ensures Blocked(s', i)
  {
    assert Evolves(s.residents[i], s'.residents[i], t);
  }

  lemma ThenKept(s: State, s': State, t: Task, i: Inst, next: Then)
    requires InstsFrame(s, s', t) && LoadsFrame(s, s', t) && ThenOk(s, i, next)
    ensures ThenOk(s', i, next)
  {
    match next
    case ThenReturn =>
    case ThenAwait(m, first, load) =>
    case ThenEvicted(m, sampled, awaited) =>
      var inst := s.loads[awaited].inst;
      if inst.Some? && Blocked(s, inst.value) {
        BlockedKept(s, s', t, inst.value);
      }
      SampledKept(s, s', t, sampled);
  }

  lemma SampledKept(s: State, s': State, t: Task, sampled: Option<Inst>)
    requires InstsFrame(s, s', t)
    requires sampled.Some? ==> sampled.value in s.residents && s.residents[sampled.value].stopped
    ensures sampled.Some? ==> sampled.value in s'.residents && s'.residents[sampled.value].stopped
  {
    if sampled.Some? {
      assert Evolves(s.residents[sampled.value], s'.residents[sampled.value], t);
    }
  }

  lemma LoaderKept(s: State, s': State, t: Task, u: Task, m: Model, l: LoadId)
    requires LoadsFrame(s, s', t) && u != t && u in s.tasks && LoaderOk(s, u, m, l)
    requires u in s'.tasks && s'.tasks[u] == s.tasks[u]
    ensures LoaderOk(s', u, m, l)
  {
    assert LoadEvolves(s.loads[l], s'.loads[l], t);
  }

  lemma SweepKept(s: State, s': State, t: Task, u: Task, toStop: set<Inst>, why: Purpose)
    requires InstsFrame(s, s', t) && LoadsFrame(s, s', t) && u != t && u in s.tasks && SweepOk(s, u, toStop, why)
    requires u in s'.tasks && s'.tasks[u] == s.tasks[u] && (s.closed ==> s'.closed)
    ensures SweepOk(s', u, toStop, why)
  {
    forall i | i in toStop
      ensures i in s'.residents && s'.residents[i].stopped
    {
      assert Evolves(s.residents[i], s'.residents[i], t);
    }
    match why
    case ForReset =>
    case ForTuning(m, l) => LoaderKept(s, s', t, u, m, l);
    case ForClose(inFlight) =>
  }

  lemma RequestPcKept(s: State, s': State, t: Task, u: Task)
    requires TasksFrame(s, s', t) && InstsFrame(s, s', t) && u != t && u in s.tasks && PcOk(s, u)
    requires s.tasks[u].Acquire? || s.tasks[u].Asleep? || s.tasks[u].TurnedAway? || s.tasks[u].Serving? || s.tasks[u].Slotless?
    ensures PcOk(s', u)
  {
    var i := s.tasks[u].i;
    assert Evolves(s.residents[i], s'.residents[i], t);
    if Blocked(s, i) {
      BlockedKept(s, s', t, i);
    }
  }

  lemma LoaderPcKept(s: State, s': State, t: Task, u: Task)
    requires TasksFrame(s, s', t) && InstsFrame(s, s', t) && LoadsFrame(s, s', t) && u != t && u in s.tasks && PcOk(s, u)
    requires s.tasks[u].Launching? || s.tasks[u].Probing? || s.tasks[u].Scanning? || s.tasks[u].Settling? || s.tasks[u].Discarding?
    ensures PcOk(s', u)
  {
    if !s.tasks[u].Discarding? {
      LoaderKept(s, s', t, u, s.tasks[u].m, s.tasks[u].l);
    }
  }

  lemma SweepPcKept(s: State, s': State, t: Task, u: Task)
    requires TasksFrame(s, s', t) && InstsFrame(s, s', t) && LoadsFrame(s, s', t) && u != t && u in s.tasks && PcOk(s, u)
    requires s.tasks[u].Sweeping? || s.tasks[u].Reaping?
    ensures PcOk(s', u)
  {
    SweepKept(s, s', t, u, s.tasks[u].toStop, s.tasks[u].why);
  }

  lemma DrainPcKept(s: State, s': State, t: Task, u: Task)
    requires TasksFrame(s, s', t) && InstsFrame(s, s', t) && LoadsFrame(s, s', t) && u != t && u in s.tasks && PcOk(s, u)
    requires s.tasks[u].Drain? || s.tasks[u].DrainAsleep? || s.tasks[u].Unregistering? || s.tasks[u].Stopping?
    ensures PcOk(s', u)
  {
    var i := s.tasks[u].i;
    assert Evolves(s.residents[i], s'.residents[i], t);
    ThenKept(s, s', t, i, s.tasks[u].next);
  }

  lemma EvictPcKept(s: State, s': State, t: Task, u: Task)
    requires TasksFrame(s, s', t) && InstsFrame(s, s', t) && LoadsFrame(s, s', t) && u != t && u in s.tasks && PcOk(s, u)
    requires s.tasks[u].Awaiting? || s.tasks[u].Evicted?
    ensures PcOk(s', u)
  {
    SampledKept(s, s', t, s.tasks[u].sampled);
    var load := s.tasks[u].load;
    if s.tasks[u].Evicted? && load.Some? && s.loads[load.value].inst.Some? {
      BlockedKept(s, s', t, s.loads[load.value].inst.value);
    }
  }

  lemma PcKept(s: State, s': State, t: Task, u: Task)
    requires TasksFrame(s, s', t) && InstsFrame(s, s', t) && LoadsFrame(s, s', t) && u != t && u in s.tasks && PcOk(s, u)
    ensures u in s'.tasks && PcOk(s', u)
  {
    var pc := s.tasks[u];
    if pc.Acquire? || pc.Asleep? || pc.TurnedAway? || pc.Serving? || pc.Slotless? {
      RequestPcKept(s, s', t, u);
    } else if pc.Launching? || pc.Probing? || pc.Scanning? || pc.Settling? || pc.Discarding? {
      LoaderPcKept(s, s', t, u);
    } else if pc.Sweeping? || pc.Reaping? {
      SweepPcKept(s, s', t, u);
    } else if pc.Drain? || pc.DrainAsleep? || pc.Unregistering? || pc.Stopping? {
      DrainPcKept(s, s', t, u);
    } else if pc.Awaiting? || pc.Evicted? {
      EvictPcKept(s, s', t, u);
    }
  }

  // ----- What the step does not touch is kept

  /** The record of Instance `i` may rely on where task `t` is. */
  predicate ReliesOn(s: State, i: Inst, t: Task)
    requires i in s.residents && t in s.tasks
  {
    match s.tasks[t]
    case Serving(j) => i == j
    case Asleep(_, j, _) => i == j && t in s.residents[i].waiters
    case IdleCallback(j) => i == j
    case Drain(j, _) => i == j
    case DrainAsleep(j, _) => i == j
    case _ => WillStop(s.tasks[t], i)
  }

  predicate UntouchedInst(s: State, s': State, t: Task, i: Inst) {
    && i in s.residents && i in s'.residents && s'.residents[i] == s.residents[i]
    && (Registered(s, i) ==> Registered(s', i) || Blocked(s', i))
    && (i in s'.drained ==> i in s.drained)
    && (t in s.tasks && ReliesOn(s, i, t) ==>
          && t in s'.tasks
          && (s'.tasks[t] == s.tasks[t]
              || (WillStop(s.tasks[t], i) && (WillStop(s'.tasks[t], i) || i in s'.stopIssued))))
  }

  predicate UntouchedLoad(s: State, s': State, t: Task, l: LoadId) {
    && l in s.loads && l in s'.loads && s'.loads[l] == s.loads[l]
    && (!s.loads[l].ready ==>
          && (t == s.loads[l].loader ==> t in s'.tasks && IsLoading(s'.tasks[t], s.loads[l].model, l))
          && (t != s.loads[l].loader && t in s.loads[l].joined ==>
                t in s'.tasks && (s'.tasks[t] == Joined(s.loads[l].model, l) || s'.tasks[t] == Returned)))
  }

  predicate UntouchedProc(s: State, s': State, t: Task, i: Inst) {
    && i in s.owner && i in s'.owner && s'.owner[i] == s.owner[i] && (i in s'.alive ==> i in s.alive)
    && (t == s.owner[i] && t in s.tasks && IsLaunching(s.tasks[t], i) ==>
          i in s'.residents || i in s'.stopIssued || (t in s'.tasks && IsLaunching(s'.tasks[t], i)))
  }

  lemma SleepersKept(s: State, s': State, t: Task, i: Inst)
    requires TasksFrame(s, s', t)
    requires i in s.residents && SleepersOk(s, i) && UntouchedInst(s, s', t, i)
    ensures SleepersOk(s', i)
  {
    assert t in s.tasks && t in s.residents[i].grants ==> ReliesOn(s, i, t);
    assert t in s.tasks && t in s.residents[i].waiters ==> ReliesOn(s, i, t);
    assert t in s.tasks && t in s.residents[i].drainers ==> ReliesOn(s, i, t);
  }

  lemma GuardedKept(s: State, s': State, t: Task, i: Inst)
    requires TasksFrame(s, s', t) && s.stopIssued <= s'.stopIssued && (i in s'.alive ==> i in s.alive)
    requires i in s.residents && GuardedOk(s, i) && UntouchedInst(s, s', t, i)
    ensures GuardedOk(s', i)
  {
    if t in s.tasks && s.residents[i].ledger.guardian == Some(t) {
      assert WillStop(s.tasks[t], i) || IsDraining(s.tasks[t], i) ==> ReliesOn(s, i, t);
    }
  }

  lemma TimerKept(s: State, s': State, t: Task, i: Inst)
    requires TasksFrame(s, s', t)
    requires i in s.residents && TimerOk(s, i) && UntouchedInst(s, s', t, i)
    ensures TimerOk(s', i)
  {
  }

  lemma InstKept(s: State, s': State, t: Task, i: Inst)
    requires TasksFrame(s, s', t) && InstsFrame(s, s', t)
    requires i in s.residents && InstOk(s, i) && UntouchedInst(s, s', t, i)
    ensures InstOk(s', i)
  {
    SleepersKept(s, s', t, i);
    GuardedKept(s, s', t, i);
    TimerKept(s, s', t, i);
    if Blocked(s, i) {
      BlockedKept(s, s', t, i);
    }
  }

  lemma LoadKept(s: State, s': State, t: Task, l: LoadId)
    requires TasksFrame(s, s', t) && InstsFrame(s, s', t)
    requires l in s.loads && LoadOk(s, l) && UntouchedLoad(s, s', t, l)
    ensures LoadOk(s', l)
  {
    var inst := s.loads[l].inst;
    if inst.Some? {
      assert Evolves(s.residents[inst.value], s'.residents[inst.value], t);
    }
  }

  lemma ProcKept(s: State, s': State, t: Task, i: Inst)
    requires TasksFrame(s, s', t) && InstsFrame(s, s', t)
    requires i in s.owner && ProcOk(s, i) && UntouchedProc(s, s', t, i)
    ensures ProcOk(s', i)
  {
  }

  /** The general preservation argument. */
  lemma StepKeeps(s: State, s': State, t: Task)
    requires Inv(s)
    requires TasksFrame(s, s', t) && InstsFrame(s, s', t) && LoadsFrame(s, s', t)
    requires t in s'.tasks ==> PcOk(s', t)
    requires forall i | i in s'.residents :: UntouchedInst(s, s', t, i) || InstOk(s', i)
    requires forall l | l in s'.loads :: UntouchedLoad(s, s', t, l) || LoadOk(s', l)
    requires forall i | i in s'.owner :: UntouchedProc(s, s', t, i) || ProcOk(s', i)
    requires RegistryOk(s')
    ensures Inv(s')
  {
    hide PcOk, InstOk, LoadOk, ProcOk, UntouchedInst, UntouchedLoad, UntouchedProc, RegistryOk, InstsFrame, LoadsFrame;
    forall u | u in s'.tasks
      ensures PcOk(s', u)
    {
      if u != t {
        PcKept(s, s', t, u);
      }
    }
    forall i | i in s'.residents
      ensures InstOk(s', i)
    {
      if UntouchedInst(s, s', t, i) {
        UntouchedIsOld(s, s', t, i);
        InstKept(s, s', t, i);
      }
    }
    forall l | l in s'.loads
      ensures LoadOk(s', l)
    {
      if UntouchedLoad(s, s', t, l) {
        UntouchedLoadIsOld(s, s', t, l);
        LoadKept(s, s', t, l);
      }
    }
    forall i | i in s'.owner
      ensures ProcOk(s', i)
    {
      if UntouchedProc(s, s', t, i) {
        UntouchedProcIsOld(s, s', t, i);
        ProcKept(s, s', t, i);
      }
    }
  }

  lemma UntouchedIsOld(s: State, s': State, t: Task, i: Inst)
    requires UntouchedInst(s, s', t, i)
    ensures i in s.residents
  {
  }

  lemma UntouchedLoadIsOld(s: State, s': State, t: Task, l: LoadId)
    requires UntouchedLoad(s, s', t, l)
    ensures l in s.loads
  {
  }

  lemma UntouchedProcIsOld(s: State, s': State, t: Task, i: Inst)
    requires UntouchedProc(s, s', t, i)
    ensures i in s.owner
  {
  }
}
