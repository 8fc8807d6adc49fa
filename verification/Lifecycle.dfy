/** The Instance lifecycle as a step system: any number of requests, evictions, idle
    callbacks, tuning sweeps and shutdowns, each a task with a program counter, interleave
    over the registry. One action is one critical section of the registry mutex or of an
    Instance's mutex, or one move of the environment. A section of the registry mutex that
    nests several sections of Instance mutexes is several actions, with `mu` held between. */
module Lifecycle {
  import opened Options
  import opened Residents

  type Model = string
  type Inst = nat
  type LoadId = nat

  /** `pendingInstance`. `joined` are the callers counted in so far, `left` those whose
      monitor counted them out, `abandoned` that a monitor called `cancel`. */
  datatype Load = Load(
    model: Model, loader: Task, callers: int, joined: set<Task>, left: set<Task>,
    abandoned: bool, evicted: bool, ready: bool, inst: Option<Inst>)

  /** On whose behalf the registry is swept. */
  datatype Purpose = ForReset | ForTuning(m: Model, l: LoadId) | ForClose(inFlight: set<LoadId>)

  /** What follows a call of `drainAndStop`: nothing, or one of the two places in `evictByID`. */
  datatype Then =
    | ThenReturn
    | ThenAwait(m: Model, first: Inst, load: Option<LoadId>)
    | ThenEvicted(m: Model, sampled: Option<Inst>, awaited: LoadId)

  datatype Pc =
    // getOrLaunchInstance
    | Retry(m: Model)
    | Acquire(m: Model, i: Inst, follower: bool)
    | Asleep(m: Model, i: Inst, follower: bool)
    | TurnedAway(m: Model, i: Inst, follower: bool)
    | Serving(i: Inst)
    | Slotless(i: Inst)
    | Joined(m: Model, l: LoadId)
    | Launching(m: Model, l: LoadId)
    | Probing(m: Model, l: LoadId, i: Inst)
    | Scanning(m: Model, l: LoadId, i: Inst, ages: map<Model, int>)
    | Settling(m: Model, l: LoadId, i: Inst)
    | Discarding(i: Inst)
    // evictAllResidentInstances and Close
    | Sweeping(toStop: set<Inst>, why: Purpose)
    | Reaping(toStop: set<Inst>, why: Purpose)
    // onInstanceIdleTimeout and drainAndStop
    | IdleCallback(i: Inst)
    | Drain(i: Inst, next: Then)
    | DrainAsleep(i: Inst, next: Then)
    | Unregistering(i: Inst, next: Then)
    | Stopping(i: Inst, next: Then)
    // evictByID
    | Evict(m: Model)
    | Awaiting(m: Model, sampled: Option<Inst>, load: Option<LoadId>)
    | Evicted(m: Model, sampled: Option<Inst>, load: Option<LoadId>)
    | Returned

  /** `mu` is the task inside a registry section that spans several actions. `residents`
      holds every Instance ever registered, `owner` the loader of every process ever
      launched, `alive` those whose `Done` is open, `stopIssued` those on which `Stop` was
      called, `drained` those on which a drain called it, `finished` the done contexts. */
  datatype State = State(
    cap: int,
    closed: bool,
    mu: Option<Task>,
    instances: map<Model, Inst>,
    loading: map<Model, LoadId>,
    residents: map<Inst, Resident>,
    loads: map<LoadId, Load>,
    tasks: map<Task, Pc>,
    finished: set<Task>,
    owner: map<Inst, Task>,
    alive: set<Inst>,
    stopIssued: set<Inst>,
    drained: set<Inst>)

  predicate Init(s: State) {
    && !s.closed && s.mu.None?
    && s.instances == map[] && s.loading == map[] && s.residents == map[] && s.loads == map[]
    && s.tasks == map[] && s.owner == map[]
    && s.finished == {} && s.alive == {} && s.stopIssued == {} && s.drained == {}
  }

  /** The environment and the callers of the Supervisor. */
  datatype EnvAction =
    | NewRequest(t: Task, m: Model)
    | NewEviction(t: Task, m: Model)
    | NewDrain(t: Task, i: Inst)
    | FireTimer(t: Task, i: Inst)
    | ChangeTtl(i: Inst, d: int)
    | CancelledSleeperBroadcast(t: Task, i: Inst)
    | FinishContext(t: Task)
    | ProcessExits(i: Inst)

  /** `getOrLaunchInstance`, as far as a request does not launch. */
  datatype RequestAction =
    | EnterClosed(t: Task)
    | EnterResident(t: Task)
    | EnterJoin(t: Task)
    | EnterLoad(t: Task, l: LoadId)
    | EnterDead(t: Task, l: LoadId)
    | Attempt(t: Task, now: int)
    | TurnAway(t: Task)
    | ReleaseSlot(t: Task, now: int)
    | FollowReady(t: Task)
    | FollowLeave(t: Task)
    | LeaveSlotless(t: Task)
    | CallerDeparts(t: Task, l: LoadId)

  /** `getOrLaunchInstance`, as the loader of a Model. */
  datatype LoadAction =
    | Launch(t: Task, i: Inst)
    | StopProbe(t: Task)
    | SettleError(t: Task)
    | SettleClosed(t: Task)
    | SettleRoom(t: Task)
    | StartScan(t: Task)
    | ScanOne(t: Task, id: Model)
    | EvictOldest(t: Task, victim: Model, drainer: Task)
    | Publish(t: Task, ttl: int, slots: int, now: int)
    | Reject(t: Task)
    | Discard(t: Task)

  /** `evictAllResidentInstances` and `Close`; `GiveUp` is the timeout of `Close` on a load. */
  datatype SweepAction =
    | StartReset(t: Task)
    | StartClose(t: Task)
    | StartTuning(t: Task)
    | SweepOne(t: Task, m: Model)
    | SweepEnd(t: Task)
    | ReapOne(t: Task, i: Inst)
    | ReapLoad(t: Task, l: LoadId)
    | GiveUp(t: Task, l: LoadId)
    | ReapEnd(t: Task)

  /** `onInstanceIdleTimeout` and `drainAndStop`. */
  datatype DrainAction =
    | RunIdleCallback(t: Task)
    | DrainStep(t: Task)
    | Unregister(t: Task)
    | StopDrained(t: Task)

  /** `evictByID`. */
  datatype EvictAction =
    | EvictSample(t: Task)
    | AwaitNothing(t: Task)
    | AwaitReady(t: Task)
    | AwaitLeave(t: Task)

  datatype Action =
    | Env(env: EnvAction)
    | Request(request: RequestAction)
    | Loader(load: LoadAction)
    | Sweep(sweep: SweepAction)
    | Drains(drain: DrainAction)
    | Evicts(evict: EvictAction)

  // ----- Helpers

  predicate At(s: State, t: Task) {
    t in s.tasks
  }

  /** An Instance that refuses every `acquire` from now on. */
  predicate Blocked(s: State, i: Inst) {
    i in s.residents && (s.residents[i].draining || s.residents[i].stopped || i !in s.alive)
  }

  predicate Registered(s: State, i: Inst) {
    i in s.residents && s.residents[i].model in s.instances && s.instances[s.residents[i].model] == i
  }

  predicate Ready(s: State, l: LoadId) {
    l in s.loads && s.loads[l].ready
  }

  function Goto(s: State, t: Task, pc: Pc): State {
    s.(tasks := s.tasks[t := pc])
  }

  function Touch(s: State, i: Inst, r: Resident): State {
    s.(residents := s.residents[i := r])
  }

  /** `delete(s.instances, id)` guarded by the identity test. */
  function Forget(s: State, i: Inst): State
    requires i in s.residents
  {
    if Registered(s, i) then s.(instances := s.instances - {s.residents[i].model}) else s
  }

  function AfterDrain(next: Then): Pc {
    match next
    case ThenReturn => Returned
    case ThenAwait(m, first, load) => Awaiting(m, Some(first), load)
    case ThenEvicted(m, sampled, awaited) => Evicted(m, sampled, Some(awaited))
  }

  function AfterReap(why: Purpose): Pc {
    match why
    case ForTuning(m, l) => Launching(m, l)
    case _ => Returned
  }

  /** The load is out of `s.loading` and its `ready` channel is closed. */
  function CloseReady(s: State, l: LoadId, inst: Option<Inst>): State
    requires l in s.loads
  {
    s.(loads := s.loads[l := s.loads[l].(ready := true, inst := inst)],
       loading := s.loading - {s.loads[l].model})
  }

  /** The Done branch at the top of the loop: the dead entry is marked and dropped. */
  function DropDead(s: State, i: Inst): State
    requires i in s.residents
  {
    Forget(Touch(s, i, MarkStopped(s.residents[i])), i)
  }

  function BeginLoad(s: State, t: Task, m: Model, l: LoadId): State {
    s.(loads := s.loads[l := Load(m, t, 1, {t}, {}, false, false, false, None)],
       loading := s.loading[m := l],
       tasks := s.tasks[t := Launching(m, l)])
  }

  function TakeMu(s: State, t: Task, pc: Pc): State {
    Goto(s, t, pc).(mu := Some(t))
  }

  /** `drainer` is the goroutine that the eviction starts. */
  function EvictVictim(s: State, i: Inst, drainer: Task): State
    requires i in s.residents
  {
    Forget(Touch(Goto(s, drainer, Drain(i, ThenReturn)), i, MarkEvicted(s.residents[i], drainer)), i)
  }

  predicate Attempting(s: State, t: Task) {
    && At(s, t)
    && (s.tasks[t].Acquire? || s.tasks[t].Asleep?)
    && s.tasks[t].i in s.residents
    && (s.tasks[t].Asleep? ==> t !in s.residents[s.tasks[t].i].waiters)
  }

  function VerdictFor(s: State, t: Task): Verdict
    requires Attempting(s, t)
  {
    Admission(s.residents[s.tasks[t].i], t in s.finished, s.tasks[t].i !in s.alive)
  }

  function DoAttempt(s: State, t: Task, now: int): State
    requires Attempting(s, t)
  {
    var pc := s.tasks[t];
    var r := s.residents[pc.i];
    match VerdictFor(s, t)
    case Refused => Goto(s, t, TurnedAway(pc.m, pc.i, pc.follower))
    case Full => Goto(Touch(s, pc.i, Sleep(r, t)), t, Asleep(pc.m, pc.i, pc.follower))
    case Granted => Goto(Touch(s, pc.i, Grant(r, t, now)), t, Serving(pc.i))
  }

  predicate DrainReady(s: State, t: Task) {
    && At(s, t)
    && (s.tasks[t].Drain? || s.tasks[t].DrainAsleep?)
    && s.tasks[t].i in s.residents
    && (s.tasks[t].DrainAsleep? ==> t !in s.residents[s.tasks[t].i].drainers)
  }

  /** Where a drain goes on after a pass. */
  function DrainNext(v: DrainVerdict, i: Inst, next: Then): Pc {
    match v
    case AlreadyStopped => AfterDrain(next)
    case MustWait => DrainAsleep(i, next)
    case MustStop => Unregistering(i, next)
  }

  function DoDrain(s: State, t: Task): State
    requires DrainReady(s, t)
  {
    var pc := s.tasks[t];
    var r := s.residents[pc.i];
    Goto(Touch(s, pc.i, DrainPass(r, t, pc.Drain?)), t, DrainNext(DrainDecision(r), pc.i, pc.next))
  }

  function DoIdleCallback(s: State, t: Task): State
    requires At(s, t) && s.tasks[t].IdleCallback? && s.tasks[t].i in s.residents
  {
    var i := s.tasks[t].i;
    var r := s.residents[i];
    Goto(Touch(s, i, IdleCallbackPass(r, t)), t, if IdleCallbackActs(r) then Drain(i, ThenReturn) else Returned)
  }

  function DoDepart(s: State, t: Task, l: LoadId): State
    requires l in s.loads
  {
    var L := s.loads[l];
    s.(loads := s.loads[l := L.(callers := L.callers - 1, left := L.left + {t},
                                abandoned := L.abandoned || L.callers - 1 == 0)])
  }

  /** The first section of `evictByID`: sample both maps and cancel a pending load. */
  function DoEvictSample(s: State, t: Task): State
    requires At(s, t) && s.tasks[t].Evict?
    requires s.tasks[t].m in s.loading ==> s.loading[s.tasks[t].m] in s.loads
  {
    var m := s.tasks[t].m;
    var load := if m in s.loading then Some(s.loading[m]) else None;
    var s1 := if load.Some? then s.(loads := s.loads[load.value := s.loads[load.value].(evicted := true)]) else s;
    Goto(s1, t, if m in s.instances then Drain(s.instances[m], ThenAwait(m, s.instances[m], load))
                else Awaiting(m, None, load))
  }

  function DoAwaitReady(s: State, t: Task): State
    requires At(s, t) && s.tasks[t].Awaiting? && s.tasks[t].load.Some?
  {
    var pc := s.tasks[t];
    Goto(s, t, if pc.m in s.instances then Drain(s.instances[pc.m], ThenEvicted(pc.m, pc.sampled, pc.load.value))
               else Evicted(pc.m, pc.sampled, pc.load))
  }

  // ----- Guards

  /** When an action can happen. */
  predicate Enabled(s: State, a: Action) {
    match a
    case Env(act) => EnvEnabled(s, act)
    case Request(act) => RequestEnabled(s, act)
    case Loader(act) => LoaderEnabled(s, act)
    case Sweep(act) => SweepEnabled(s, act)
    case Drains(act) => DrainsEnabled(s, act)
    case Evicts(act) => EvictsEnabled(s, act)
  }

  predicate EnvEnabled(s: State, a: EnvAction) {
    match a
    case NewRequest(t, m) => !At(s, t)
    case NewEviction(t, m) => !At(s, t)
    case NewDrain(t, i) => !At(s, t) && i in s.residents
    case FireTimer(t, i) => !At(s, t) && i in s.residents && s.residents[i].armed
    case ChangeTtl(i, d) => i in s.residents
    case CancelledSleeperBroadcast(t, i) => t in s.finished && i in s.residents
    case FinishContext(t) => true
    case ProcessExits(i) => i in s.alive
  }

  predicate RequestEnabled(s: State, a: RequestAction) {
    match a
    case EnterClosed(t) => At(s, t) && s.tasks[t].Retry? && s.mu.None? && s.closed
    case EnterResident(t) =>
      && At(s, t) && s.tasks[t].Retry? && s.mu.None? && !s.closed
      && s.tasks[t].m in s.instances && s.instances[s.tasks[t].m] in s.alive
    case EnterJoin(t) =>
      && At(s, t) && s.tasks[t].Retry? && s.mu.None? && !s.closed
      && s.tasks[t].m !in s.instances && s.tasks[t].m in s.loading && s.loading[s.tasks[t].m] in s.loads
    case EnterLoad(t, l) =>
      && At(s, t) && s.tasks[t].Retry? && s.mu.None? && !s.closed && l !in s.loads
      && s.tasks[t].m !in s.instances && s.tasks[t].m !in s.loading
    case EnterDead(t, l) =>
      && At(s, t) && s.tasks[t].Retry? && s.mu.None? && !s.closed && l !in s.loads
      && s.tasks[t].m in s.instances && s.instances[s.tasks[t].m] in s.residents
      && s.instances[s.tasks[t].m] !in s.alive && s.tasks[t].m !in s.loading
    case Attempt(t, now) => Attempting(s, t)
    case TurnAway(t) =>
      && At(s, t) && s.tasks[t].TurnedAway? && s.tasks[t].i in s.residents
      && (t !in s.finished && !s.tasks[t].follower ==> s.mu.None?)
    case ReleaseSlot(t, now) => At(s, t) && s.tasks[t].Serving? && s.tasks[t].i in s.residents
    case FollowReady(t) => At(s, t) && s.tasks[t].Joined? && Ready(s, s.tasks[t].l) && s.mu.None?
    case FollowLeave(t) => At(s, t) && s.tasks[t].Joined? && t in s.finished
    case LeaveSlotless(t) => At(s, t) && s.tasks[t].Slotless?
    case CallerDeparts(t, l) => l in s.loads && t in s.loads[l].joined && t !in s.loads[l].left && t in s.finished
  }

  predicate LoaderEnabled(s: State, a: LoadAction) {
    match a
    case Launch(t, i) => At(s, t) && s.tasks[t].Launching? && i !in s.owner
    case StopProbe(t) => At(s, t) && s.tasks[t].Probing?
    case SettleError(t) => At(s, t) && s.tasks[t].Launching? && s.mu.None? && s.tasks[t].l in s.loads
    case SettleClosed(t) => At(s, t) && s.tasks[t].Probing? && s.mu.None? && s.closed && s.tasks[t].l in s.loads
    case SettleRoom(t) =>
      && At(s, t) && s.tasks[t].Probing? && s.mu.None? && !s.closed
      && !(s.cap > 0 && |s.instances| >= s.cap)
    case StartScan(t) =>
      && At(s, t) && s.tasks[t].Probing? && s.mu.None? && !s.closed
      && s.cap > 0 && |s.instances| >= s.cap
    case ScanOne(t, id) =>
      && At(s, t) && s.tasks[t].Scanning? && id in s.instances && id !in s.tasks[t].ages
      && s.instances[id] in s.residents
    case EvictOldest(t, victim, drainer) =>
      && At(s, t) && s.tasks[t].Scanning? && s.tasks[t].ages.Keys == s.instances.Keys && Oldest(s.tasks[t].ages, victim)
      && !At(s, drainer) && victim in s.instances && s.instances[victim] in s.residents
    case Publish(t, ttl, slots, now) =>
      && At(s, t) && s.tasks[t].Settling? && s.tasks[t].l in s.loads
      && t !in s.finished && s.tasks[t].i in s.alive
    case Reject(t) =>
      && At(s, t) && s.tasks[t].Settling? && s.tasks[t].l in s.loads
      && (t in s.finished || s.tasks[t].i !in s.alive)
    case Discard(t) => At(s, t) && s.tasks[t].Discarding?
  }

  predicate SweepEnabled(s: State, a: SweepAction) {
    match a
    case StartReset(t) => !At(s, t) && s.mu.None?
    case StartClose(t) => !At(s, t) && s.mu.None?
    case StartTuning(t) => At(s, t) && s.tasks[t].Launching? && s.mu.None?
    case SweepOne(t, m) => At(s, t) && s.tasks[t].Sweeping? && m in s.instances && s.instances[m] in s.residents
    case SweepEnd(t) => At(s, t) && s.tasks[t].Sweeping? && s.instances == map[]
    case ReapOne(t, i) => At(s, t) && s.tasks[t].Reaping? && i in s.tasks[t].toStop
    case ReapLoad(t, l) =>
      At(s, t) && s.tasks[t].Reaping? && s.tasks[t].why.ForClose? && l in s.tasks[t].why.inFlight && Ready(s, l)
    case GiveUp(t, l) =>
      At(s, t) && s.tasks[t].Reaping? && s.tasks[t].why.ForClose? && l in s.tasks[t].why.inFlight
    case ReapEnd(t) =>
      && At(s, t) && s.tasks[t].Reaping? && s.tasks[t].toStop == {}
      && (s.tasks[t].why.ForClose? ==> s.tasks[t].why.inFlight == {})
  }

  predicate DrainsEnabled(s: State, a: DrainAction) {
    match a
    case RunIdleCallback(t) => At(s, t) && s.tasks[t].IdleCallback? && s.tasks[t].i in s.residents
    case DrainStep(t) => DrainReady(s, t)
    case Unregister(t) => At(s, t) && s.tasks[t].Unregistering? && s.tasks[t].i in s.residents && s.mu.None?
    case StopDrained(t) => At(s, t) && s.tasks[t].Stopping?
  }

  predicate EvictsEnabled(s: State, a: EvictAction) {
    match a
    case EvictSample(t) =>
      && At(s, t) && s.tasks[t].Evict? && s.mu.None?
      && (s.tasks[t].m in s.loading ==> s.loading[s.tasks[t].m] in s.loads)
    case AwaitNothing(t) => At(s, t) && s.tasks[t].Awaiting? && s.tasks[t].load.None?
    case AwaitReady(t) =>
      && At(s, t) && s.tasks[t].Awaiting? && s.tasks[t].load.Some?
      && Ready(s, s.tasks[t].load.value) && s.mu.None?
    case AwaitLeave(t) => At(s, t) && s.tasks[t].Awaiting? && s.tasks[t].load.Some? && t in s.finished
  }

  // ----- Effects

  /** The state after an action. */
  function Apply(s: State, a: Action): State
    requires Enabled(s, a)
  {
    match a
    case Env(act) => ApplyEnv(s, act)
    case Request(act) => ApplyRequest(s, act)
    case Loader(act) => ApplyLoader(s, act)
    case Sweep(act) => ApplySweep(s, act)
    case Drains(act) => ApplyDrains(s, act)
    case Evicts(act) => ApplyEvicts(s, act)
  }

  function ApplyEnv(s: State, a: EnvAction): State
    requires EnvEnabled(s, a)
  {
    match a
    case NewRequest(t, m) => Goto(s, t, Retry(m))
    case NewEviction(t, m) => Goto(s, t, Evict(m))
    case NewDrain(t, i) => Goto(s, t, Drain(i, ThenReturn))
    case FireTimer(t, i) => Goto(Touch(s, i, TimerFires(s.residents[i], t)), t, IdleCallback(i))
    case ChangeTtl(i, d) => Touch(s, i, SetTtl(s.residents[i], d))
    case CancelledSleeperBroadcast(t, i) => Touch(s, i, Broadcast(s.residents[i]))
    case FinishContext(t) => s.(finished := s.finished + {t})
    case ProcessExits(i) => s.(alive := s.alive - {i})
  }

  function ApplyRequest(s: State, a: RequestAction): State
    requires RequestEnabled(s, a)
  {
    match a
    case EnterClosed(t) => Goto(s, t, Returned)
    case EnterResident(t) => Goto(s, t, Acquire(s.tasks[t].m, s.instances[s.tasks[t].m], false))
    case EnterJoin(t) =>
      var l := s.loading[s.tasks[t].m];
      var L := s.loads[l];
      Goto(s.(loads := s.loads[l := L.(callers := L.callers + 1, joined := L.joined + {t})]), t, Joined(s.tasks[t].m, l))
    case EnterLoad(t, l) => BeginLoad(s, t, s.tasks[t].m, l)
    case EnterDead(t, l) => BeginLoad(DropDead(s, s.instances[s.tasks[t].m]), t, s.tasks[t].m, l)
    case Attempt(t, now) => DoAttempt(s, t, now)
    case TurnAway(t) =>
      if t in s.finished then Goto(s, t, Returned)
      else if s.tasks[t].follower then Goto(s, t, Retry(s.tasks[t].m))
      else Goto(Forget(s, s.tasks[t].i), t, Retry(s.tasks[t].m))
    case ReleaseSlot(t, now) =>
      Goto(Touch(s, s.tasks[t].i, Release(s.residents[s.tasks[t].i], t, now)), t, Returned)
    case FollowReady(t) =>
      var pc := s.tasks[t];
      Goto(s, t, if s.loads[pc.l].inst.None? then Returned
                 else if pc.m in s.instances then Acquire(pc.m, s.instances[pc.m], true)
                 else Slotless(s.loads[pc.l].inst.value))
    case FollowLeave(t) => Goto(s, t, Returned)
    case LeaveSlotless(t) => Goto(s, t, Returned)
    case CallerDeparts(t, l) => DoDepart(s, t, l)
  }

  function ApplyLoader(s: State, a: LoadAction): State
    requires LoaderEnabled(s, a)
  {
    match a
    case Launch(t, i) =>
      Goto(s, t, Probing(s.tasks[t].m, s.tasks[t].l, i)).(owner := s.owner[i := t], alive := s.alive + {i})
    case StopProbe(t) =>
      Goto(s, t, Launching(s.tasks[t].m, s.tasks[t].l)).(stopIssued := s.stopIssued + {s.tasks[t].i})
    case SettleError(t) => Goto(CloseReady(s, s.tasks[t].l, None), t, Returned)
    case SettleClosed(t) => Goto(CloseReady(s, s.tasks[t].l, None), t, Discarding(s.tasks[t].i))
    case SettleRoom(t) =>
      var pc := s.tasks[t];
      TakeMu(s, t, Settling(pc.m, pc.l, pc.i)).(loading := s.loading - {pc.m})
    case StartScan(t) =>
      var pc := s.tasks[t];
      TakeMu(s, t, Scanning(pc.m, pc.l, pc.i, map[]))
    case ScanOne(t, id) =>
      var pc := s.tasks[t];
      Goto(s, t, Scanning(pc.m, pc.l, pc.i, pc.ages[id := s.residents[s.instances[id]].lastUsed]))
    case EvictOldest(t, victim, drainer) =>
      var pc := s.tasks[t];
      TakeMu(EvictVictim(s, s.instances[victim], drainer), t, Settling(pc.m, pc.l, pc.i)).(loading := s.loading - {pc.m})
    case Publish(t, ttl, slots, now) =>
      var pc := s.tasks[t];
      Goto(Touch(CloseReady(s, pc.l, Some(pc.i)), pc.i, Grant(NewResident(pc.m, ttl, slots, now), t, now)), t, Serving(pc.i))
      .(instances := s.instances[pc.m := pc.i], mu := None)
    case Reject(t) => Goto(CloseReady(s, s.tasks[t].l, None), t, Discarding(s.tasks[t].i)).(mu := None)
    case Discard(t) => Goto(s, t, Returned).(stopIssued := s.stopIssued + {s.tasks[t].i})
  }

  function ApplySweep(s: State, a: SweepAction): State
    requires SweepEnabled(s, a)
  {
    match a
    case StartReset(t) => TakeMu(s, t, Sweeping({}, ForReset))
    case StartClose(t) => TakeMu(s, t, Sweeping({}, ForClose({}))).(closed := true)
    case StartTuning(t) => TakeMu(s, t, Sweeping({}, ForTuning(s.tasks[t].m, s.tasks[t].l)))
    case SweepOne(t, m) =>
      var i := s.instances[m];
      var r := MarkStopped(s.residents[i]);
      Goto(Touch(s, i, r.(ledger := r.ledger.(guardian := Some(t)))), t,
           Sweeping(s.tasks[t].toStop + {i}, s.tasks[t].why))
      .(instances := s.instances - {m})
    case SweepEnd(t) =>
      var why := s.tasks[t].why;
      Goto(s, t, Reaping(s.tasks[t].toStop, if why.ForClose? then ForClose(s.loading.Values) else why)).(mu := None)
    case ReapOne(t, i) =>
      Goto(s, t, Reaping(s.tasks[t].toStop - {i}, s.tasks[t].why)).(stopIssued := s.stopIssued + {i})
    case ReapLoad(t, l) =>
      Goto(s, t, Reaping(s.tasks[t].toStop, ForClose(s.tasks[t].why.inFlight - {l})))
      .(stopIssued := if s.loads[l].inst.Some? then s.stopIssued + {s.loads[l].inst.value} else s.stopIssued)
    case GiveUp(t, l) => Goto(s, t, Reaping(s.tasks[t].toStop, ForClose(s.tasks[t].why.inFlight - {l})))
    case ReapEnd(t) => Goto(s, t, AfterReap(s.tasks[t].why))
  }

  function ApplyDrains(s: State, a: DrainAction): State
    requires DrainsEnabled(s, a)
  {
    match a
    case RunIdleCallback(t) => DoIdleCallback(s, t)
    case DrainStep(t) => DoDrain(s, t)
    case Unregister(t) => Goto(Forget(s, s.tasks[t].i), t, Stopping(s.tasks[t].i, s.tasks[t].next))
    case StopDrained(t) =>
      Goto(s, t, AfterDrain(s.tasks[t].next))
      .(stopIssued := s.stopIssued + {s.tasks[t].i}, drained := s.drained + {s.tasks[t].i})
  }

  function ApplyEvicts(s: State, a: EvictAction): State
    requires EvictsEnabled(s, a)
  {
    match a
    case EvictSample(t) => DoEvictSample(s, t)
    case AwaitNothing(t) => Goto(s, t, Evicted(s.tasks[t].m, s.tasks[t].sampled, None))
    case AwaitReady(t) => DoAwaitReady(s, t)
    case AwaitLeave(t) => Goto(s, t, Returned)
  }

  /** A run: states joined by enabled actions, from an initial state. */
  ghost predicate IsRun(states: seq<State>, actions: seq<Action>) {
    && |states| == |actions| + 1
    && Init(states[0])
    && forall k | 0 <= k < |actions| :: Enabled(states[k], actions[k]) && states[k + 1] == Apply(states[k], actions[k])
  }
}
