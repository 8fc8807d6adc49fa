/** The invariant is inductive: it holds initially and every action keeps it. */
module LifecycleInduction {
  import opened Options
  import opened Residents
  import opened Lifecycle
  import opened LifecycleInvariant
  import opened LifecycleSteps
  import opened LifecycleActions
  import opened LifecycleRequests
  import opened LifecycleLoads
  import opened LifecycleSweeps

  lemma InitOk(s: State)
    requires Init(s)
    ensures Inv(s)
  {
  }

  lemma EnvKeeps(s: State, a: EnvAction)
    requires Inv(s) && EnvEnabled(s, a)
    ensures Inv(ApplyEnv(s, a))
  {
    hide Inv;
    var s' := ApplyEnv(s, a);
    match a
    case NewRequest(t, m) => ArrivalKeeps(s, s', t, Retry(m));
    case NewEviction(t, m) => ArrivalKeeps(s, s', t, Evict(m));
    case NewDrain(t, i) => ArrivalKeeps(s, s', t, Drain(i, ThenReturn));
    case FireTimer(t, i) => FireTimerKeeps(s, s', t, i);
    case ChangeTtl(i, d) => ChangeTtlKeeps(s, s', i, d);
    case CancelledSleeperBroadcast(t, i) => BroadcastKeeps(s, s', i);
    case FinishContext(t) => ProgressKeeps(s, s');
    case ProcessExits(i) => ProgressKeeps(s, s');
  }

  lemma RequestKeeps(s: State, a: RequestAction)
    requires Inv(s) && RequestEnabled(s, a)
    ensures Inv(ApplyRequest(s, a))
  {
    hide Inv, DropDead, Forget, Grant, Sleep, Release;
    var s' := ApplyRequest(s, a);
    match a
    case EnterClosed(t) => EnterKeeps(s, s', t, Returned);
    case EnterResident(t) => EnterKeeps(s, s', t, Acquire(s.tasks[t].m, s.instances[s.tasks[t].m], false));
    case EnterJoin(t) => JoinKeeps(s, s', t, s.tasks[t].m, s.loading[s.tasks[t].m]);
    case EnterLoad(t, l) => BeginKeeps(s, s', t, s.tasks[t].m, l);
    case EnterDead(t, l) => EnterDeadKeeps(s, s', t, l);
    case Attempt(t, now) => AttemptKeeps(s, s', t, now);
    case TurnAway(t) => TurnAwayKeeps(s, s', t);
    case ReleaseSlot(t, now) => ReleaseKeeps(s, s', t, s.tasks[t].i, now);
    case FollowReady(t) => FollowKeeps(s, s', t, s'.tasks[t]);
    case FollowLeave(t) => FollowKeeps(s, s', t, Returned);
    case LeaveSlotless(t) => LeaveKeeps(s, s', t);
    case CallerDeparts(t, l) => DepartKeeps(s, s', t, l);
  }

  lemma PublishedRecord(m: Model, t: Task, ttl: int, slots: int, now: int)
    ensures var r := Grant(NewResident(m, ttl, slots, now), t, now);
            && ResidentOk(r) && r.model == m && r.grants == {t} && r.active == 1
            && r.waiters == {} && r.drainers == {} && !r.draining && !r.stopped && !r.timerActive && r.ledger.drainedBy.None?
  {
  }

  lemma PublishesGrant(s: State, s': State, t: Task, ttl: int, slots: int, now: int)
    requires Inv(s) && LoaderEnabled(s, Publish(t, ttl, slots, now)) && s' == ApplyLoader(s, Publish(t, ttl, slots, now))
    ensures var pc := s.tasks[t];
            Publishes(s, s', t, pc.m, pc.l, pc.i, Grant(NewResident(pc.m, ttl, slots, now), t, now))
  {
    hide Inv, PcOk, Publishable, Grant, NewResident;
    InvPc(s, t);
    SettlingFacts(s, t);
    PublishedRecord(s.tasks[t].m, t, ttl, slots, now);
    hide ResidentOk;
  }

  lemma ScansKeep(s: State, a: LoadAction)
    requires Inv(s) && LoaderEnabled(s, a) && (a.StartScan? || a.ScanOne? || a.EvictOldest?)
    ensures Inv(ApplyLoader(s, a))
  {
    hide Inv, EvictVictim;
    var s' := ApplyLoader(s, a);
    match a
    case StartScan(t) => ScanKeeps(s, s', t, s'.tasks[t]);
    case ScanOne(t, id) =>
      ScanningFacts(s, t);
      ScanKeeps(s, s', t, s'.tasks[t]);
    case EvictOldest(t, victim, d) =>
      EvictOldestKeeps(s, Goto(s, t, Probing(s.tasks[t].m, s.tasks[t].l, s.tasks[t].i)).(mu := None), s', t, victim, d);
  }

  lemma LoaderKeeps(s: State, a: LoadAction)
    requires Inv(s) && LoaderEnabled(s, a)
    ensures Inv(ApplyLoader(s, a))
  {
    hide Inv, LoaderEnabled, ApplyLoader;
    if a.StartScan? || a.ScanOne? || a.EvictOldest? {
      ScansKeep(s, a);
    } else if a.Launch? || a.StopProbe? || a.Discard? {
      ProcessesKeep(s, a);
    } else if a.Publish? {
      PublishingKeeps(s, a.t, a.ttl, a.slots, a.now);
    } else {
      SettlesKeep(s, a);
    }
  }

  lemma PublishingKeeps(s: State, t: Task, ttl: int, slots: int, now: int)
    requires Inv(s) && LoaderEnabled(s, Publish(t, ttl, slots, now))
    ensures Inv(ApplyLoader(s, Publish(t, ttl, slots, now)))
  {
    hide Inv, Grant, NewResident, Publishes;
    var s' := ApplyLoader(s, Publish(t, ttl, slots, now));
    PublishesGrant(s, s', t, ttl, slots, now);
    PublishKeeps(s, s', t, s.tasks[t].m, s.tasks[t].l, s.tasks[t].i, Grant(NewResident(s.tasks[t].m, ttl, slots, now), t, now));
  }

  lemma SettlesKeep(s: State, a: LoadAction)
    requires Inv(s) && LoaderEnabled(s, a) && (a.SettleError? || a.SettleClosed? || a.SettleRoom? || a.Reject?)
    ensures Inv(ApplyLoader(s, a))
  {
    hide Inv;
    var s' := ApplyLoader(s, a);
    match a
    case SettleError(t) => SettleKeeps(s, s', t, Returned);
    case SettleClosed(t) => SettleKeeps(s, s', t, Discarding(s.tasks[t].i));
    case SettleRoom(t) => RoomKeeps(s, s', t);
    case Reject(t) =>
      SettlingHoldsMu(s, t);
      SettleKeeps(s, s', t, Discarding(s.tasks[t].i));
  }

  lemma ProcessesKeep(s: State, a: LoadAction)
    requires Inv(s) && LoaderEnabled(s, a) && (a.Launch? || a.StopProbe? || a.Discard?)
    ensures Inv(ApplyLoader(s, a))
  {
    hide Inv;
    var s' := ApplyLoader(s, a);
    match a
    case Launch(t, i) => LaunchKeeps(s, s', t, i);
    case StopProbe(t) =>
      LetGoKeeps(s, s.(stopIssued := s.stopIssued + {s.tasks[t].i}), s', t, Launching(s.tasks[t].m, s.tasks[t].l));
    case Discard(t) => LetGoKeeps(s, s.(stopIssued := s.stopIssued + {s.tasks[t].i}), s', t, Returned);
  }

  lemma SettlingHoldsMu(s: State, t: Task)
    requires Inv(s) && t in s.tasks && HoldsMu(s.tasks[t])
    ensures s.mu == Some(t)
  {
    InvPc(s, t);
  }

  lemma SweepsOneMark(s: State, s': State, t: Task, m: Model)
    requires Inv(s) && SweepEnabled(s, SweepOne(t, m)) && s' == ApplySweep(s, SweepOne(t, m))
    ensures var r := MarkStopped(s.residents[s.instances[m]]);
            SweepsOne(s, s', t, m, s.instances[m], r.(ledger := r.ledger.(guardian := Some(t))), s'.tasks[t])
  {
    hide Inv;
    SettlingHoldsMu(s, t);
    EntryOk(s, m);
    ResidentIsOk(s, s.instances[m]);
  }

  lemma ResidentIsOk(s: State, i: Inst)
    requires Inv(s) && i in s.residents
    ensures ResidentOk(s.residents[i])
  {
    InvInst(s, i);
  }

  lemma SweepKeeps(s: State, a: SweepAction)
    requires Inv(s) && SweepEnabled(s, a)
    ensures Inv(ApplySweep(s, a))
  {
    hide Inv, MarkStopped, SweepsOne;
    var s' := ApplySweep(s, a);
    match a
    case StartReset(t) => StartKeeps(s, s', t, ForReset);
    case StartClose(t) => StartKeeps(s, s', t, ForClose({}));
    case StartTuning(t) => StartKeeps(s, s', t, ForTuning(s.tasks[t].m, s.tasks[t].l));
    case SweepOne(t, m) =>
      SweepsOneMark(s, s', t, m);
      var r := MarkStopped(s.residents[s.instances[m]]);
      SweepOneKeeps(s, s', t, m, s.instances[m], r.(ledger := r.ledger.(guardian := Some(t))), s'.tasks[t]);
    case SweepEnd(t) =>
      SettlingHoldsMu(s, t);
      EndKeeps(s, s', t, s'.tasks[t]);
    case ReapOne(t, i) =>
      var s1 := s.(stopIssued := s'.stopIssued);
      ProgressKeeps(s, s1);
      ReapKeeps(s1, s', t, s'.tasks[t]);
    case ReapLoad(t, l) =>
      var s1 := s.(stopIssued := s'.stopIssued);
      ProgressKeeps(s, s1);
      ReapKeeps(s1, s', t, s'.tasks[t]);
    case GiveUp(t, l) => ReapKeeps(s, s', t, s'.tasks[t]);
    case ReapEnd(t) => ReapKeeps(s, s', t, s'.tasks[t]);
  }

  lemma DrainsKeep(s: State, a: DrainAction)
    requires Inv(s) && DrainsEnabled(s, a)
    ensures Inv(ApplyDrains(s, a))
  {
    hide Inv, Forget;
    var s' := ApplyDrains(s, a);
    match a
    case RunIdleCallback(t) => IdleCallbackKeeps(s, s', t);
    case DrainStep(t) => DrainKeeps(s, s', t);
    case Unregister(t) => UnregisterKeeps(s, Forget(s, s.tasks[t].i), s', t, Stopping(s.tasks[t].i, s.tasks[t].next));
    case StopDrained(t) =>
      var s1 := s.(stopIssued := s'.stopIssued);
      ProgressKeeps(s, s1);
      EndDrainKeeps(s1, s', t, s.tasks[t].i, AfterDrain(s.tasks[t].next));
  }

  lemma EvictsKeep(s: State, a: EvictAction)
    requires Inv(s) && EvictsEnabled(s, a)
    ensures Inv(ApplyEvicts(s, a))
  {
    hide Inv;
    var s' := ApplyEvicts(s, a);
    match a
    case EvictSample(t) => SampleKeeps(s, s', t);
    case AwaitNothing(t) => AwaitEndsKeeps(s, s', t, s'.tasks[t]);
    case AwaitReady(t) => AwaitReadyKeeps(s, s', t);
    case AwaitLeave(t) => AwaitEndsKeeps(s, s', t, Returned);
  }

  /** Every action keeps the invariant. */
  lemma ActionKeeps(s: State, a: Action)
    requires Inv(s) && Enabled(s, a)
    ensures Inv(Apply(s, a))
  {
    hide Inv, EnvEnabled, RequestEnabled, LoaderEnabled, SweepEnabled, DrainsEnabled, EvictsEnabled;
    hide ApplyEnv, ApplyRequest, ApplyLoader, ApplySweep, ApplyDrains, ApplyEvicts;
    match a
    case Env(act) => EnvKeeps(s, act);
    case Request(act) => RequestKeeps(s, act);
    case Loader(act) => LoaderKeeps(s, act);
    case Sweep(act) => SweepKeeps(s, act);
    case Drains(act) => DrainsKeep(s, act);
    case Evicts(act) => EvictsKeep(s, act);
  }
}
