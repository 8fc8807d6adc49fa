/** Every action of the lifecycle keeps the invariant. */
module LifecycleActions {
  import opened Options
  import opened Residents
  import opened Lifecycle
  import opened LifecycleInvariant
  import opened LifecycleSteps

  // ----- Sections of one Instance

  /** The parts of the invariant that an Instance section is proved from. */
  lemma InvAt(s: State, t: Task, i: Inst)
    requires Inv(s) && t in s.tasks && i in s.residents
    ensures PcOk(s, t) && InstOk(s, i)
  {
  }

  lemma SleepersMoved(s: State, s': State, t: Task, i: Inst)
    requires i in s.residents && SleepersOk(s, i)
    requires TasksFrame(s, s', t) && i in s'.residents && Evolves(s.residents[i], s'.residents[i], t)
    requires SleeperOk(s', t, i)
    ensures SleepersOk(s', i)
  {
  }

  /** If the record of `i` lists task `t`, then `t` is where the record says. */
  predicate SleeperOk(s: State, t: Task, i: Inst)
    requires i in s.residents
  {
    && (t in s.residents[i].grants ==> t in s.tasks && s.tasks[t] == Serving(i))
    && (t in s.residents[i].waiters ==> t in s.tasks && s.tasks[t].Asleep? && s.tasks[t].i == i)
    && (t in s.residents[i].drainers ==> t in s.tasks && s.tasks[t].DrainAsleep? && s.tasks[t].i == i)
  }

  lemma SectionInst(s: State, s': State, i: Inst, r: Resident, t: Task, pc: Pc)
    requires i in s.residents && InstOk(s, i) && s' == Goto(Touch(s, i, r), t, pc)
    requires ResidentOk(r) && Evolves(s.residents[i], r, t)
    requires SleeperOk(s', t, i) && GuardedOk(s', i) && TimerOk(s', i)
    requires !r.stopped ==> r.ledger.drainedBy.None?
    ensures InstOk(s', i)
  {
    SleepersMoved(s, s', t, i);
  }

  /** What is left to check of a section that leaves Instance `i` as `r` and task `t` at `pc`. */
  predicate Lands(s: State, s': State, i: Inst, r: Resident, t: Task, pc: Pc) {
    && i in s.residents && s' == Goto(Touch(s, i, r), t, pc)
    && (t in s.tasks ==> Works(s.tasks[t], i))
    && ResidentOk(r) && Evolves(s.residents[i], r, t)
    && (!r.stopped ==> r.ledger.drainedBy.None?)
    && t in s'.tasks && PcOk(s', t)
    && i in s'.residents && SleeperOk(s', t, i) && GuardedOk(s', i) && TimerOk(s', i)
  }

  lemma LandsOk(s: State, s': State, i: Inst, r: Resident, t: Task, pc: Pc)
    requires Lands(s, s', i, r, t, pc) && InstOk(s, i)
    ensures i in s.residents && s' == Goto(Touch(s, i, r), t, pc)
    ensures t in s.tasks ==> Works(s.tasks[t], i)
    ensures Evolves(s.residents[i], r, t)
    ensures t in s'.tasks && PcOk(s', t) && i in s'.residents && InstOk(s', i)
  {
    hide PcOk;
    SectionInst(s, s', i, r, t, pc);
  }

  /** A section of an Instance, run by task `t`, keeps the invariant. */
  lemma RunKeeps(s: State, s': State, i: Inst, r: Resident, t: Task, pc: Pc)
    requires Inv(s) && i in s.residents && InstOk(s, i) && Lands(s, s', i, r, t, pc)
    ensures Inv(s')
  {
    hide *;
    LandsOk(s, s', i, r, t, pc);
    SectionKeeps(s, s', i, r, t, pc);
  }

  /** Neither the guard nor the timer of Instance `i` relies on task `t`. */
  lemma NotRelied(s: State, s': State, i: Inst, r: Resident, t: Task, pc: Pc)
    requires i in s.residents && s' == Goto(Touch(s, i, r), t, pc) && GuardedOk(s, i)
    requires t in s.tasks ==> s.tasks[t].Acquire? || s.tasks[t].Asleep? || s.tasks[t].Serving? || s.tasks[t].IdleCallback?
    requires r.ledger.guardian == s.residents[i].ledger.guardian
    requires r.draining == s.residents[i].draining && r.stopped == s.residents[i].stopped
    ensures i in s'.residents && GuardedOk(s', i)
  {
  }

  lemma NotTimed(s: State, s': State, i: Inst, r: Resident, t: Task, pc: Pc)
    requires i in s.residents && s' == Goto(Touch(s, i, r), t, pc) && TimerOk(s, i)
    requires t in s.tasks ==> s.tasks[t].Acquire? || s.tasks[t].Asleep?
    requires r == s.residents[i].(maxSlots := r.maxSlots, waiters := r.waiters)
    ensures i in s'.residents && TimerOk(s', i)
  {
  }

  // ----- acquire and release

  lemma RefusedOk(s: State, s': State, t: Task, i: Inst, pc: Pc)
    requires i in s.residents && t in s.tasks && Works(s.tasks[t], i) && PcOk(s, t) && InstOk(s, i)
    requires s.tasks[t].Acquire? || (s.tasks[t].Asleep? && t !in s.residents[i].waiters)
    requires pc == TurnedAway(s.tasks[t].m, i, s.tasks[t].follower) && (t in s.finished || Blocked(s, i))
    requires s' == Goto(s, t, pc)
    ensures Lands(s, s', i, s.residents[i], t, pc)
  {
    hide ResidentOk, GuardedOk, SleepersOk, TimerOk, Registered, SleeperOk, Blocked;
    InstParts(s, i);
    RefusedPc(s, s', t, i, pc);
    assert s.residents[i := s.residents[i]] == s.residents;
    NotRelied(s, s', i, s.residents[i], t, pc);
    NotTimed(s, s', i, s.residents[i], t, pc);
    AwakeOk(s, s', t, i);
    hide PcOk, InstOk;
  }

  lemma RefusedPc(s: State, s': State, t: Task, i: Inst, pc: Pc)
    requires i in s.residents && t in s.tasks && (s.tasks[t].Acquire? || s.tasks[t].Asleep?) && s.tasks[t].i == i && PcOk(s, t)
    requires pc == TurnedAway(s.tasks[t].m, i, s.tasks[t].follower) && (t in s.finished || Blocked(s, i))
    requires s' == Goto(s, t, pc)
    ensures PcOk(s', t)
  {
  }

  lemma AwakeOk(s: State, s': State, t: Task, i: Inst)
    requires i in s.residents && t in s.tasks && SleepersOk(s, i) && s'.residents == s.residents
    requires s.tasks[t].Acquire? || (s.tasks[t].Asleep? && t !in s.residents[i].waiters)
    ensures i in s'.residents && SleeperOk(s', t, i)
  {
  }

  lemma SleepOk(s: State, s': State, t: Task, i: Inst, pc: Pc)
    requires i in s.residents && t in s.tasks && Works(s.tasks[t], i) && PcOk(s, t) && InstOk(s, i)
    requires s.tasks[t].Acquire? || s.tasks[t].Asleep?
    requires Admission(s.residents[i], false, false) == Full
    requires pc == Asleep(s.tasks[t].m, i, s.tasks[t].follower)
    requires s' == Goto(Touch(s, i, Sleep(s.residents[i], t)), t, pc)
    ensures Lands(s, s', i, Sleep(s.residents[i], t), t, pc)
  {
    hide ResidentOk, Evolves, GuardedOk, SleepersOk, TimerOk, Registered, Blocked, SleeperOk, Sleep, PcOk, InstOk, Admission;
    InstParts(s, i);
    Residents.SleepOk(s.residents[i], t);
    SleepLedger(s.residents[i], t);
    AsleepPc(s, s', t, i, pc);
    AsleepSleeps(s, s', t, i, pc);
    NotRelied(s, s', i, Sleep(s.residents[i], t), t, pc);
    NotTimed(s, s', i, Sleep(s.residents[i], t), t, pc);
  }

  lemma SleepLedger(r: Resident, t: Task)
    ensures var g := Sleep(r, t);
            && g == r.(maxSlots := g.maxSlots, waiters := g.waiters)
            && g.ledger == r.ledger && g.stopped == r.stopped && g.draining == r.draining
  {
  }

  lemma AsleepPc(s: State, s': State, t: Task, i: Inst, pc: Pc)
    requires i in s.residents && t in s.tasks && (s.tasks[t].Acquire? || s.tasks[t].Asleep?) && s.tasks[t].i == i && PcOk(s, t)
    requires pc == Asleep(s.tasks[t].m, i, s.tasks[t].follower)
    requires s' == Goto(Touch(s, i, Sleep(s.residents[i], t)), t, pc)
    ensures t in s'.tasks && PcOk(s', t)
  {
  }

  lemma AsleepSleeps(s: State, s': State, t: Task, i: Inst, pc: Pc)
    requires i in s.residents && t in s.tasks && (s.tasks[t].Acquire? || s.tasks[t].Asleep?) && SleepersOk(s, i)
    requires pc == Asleep(s.tasks[t].m, i, s.tasks[t].follower)
    requires s' == Goto(Touch(s, i, Sleep(s.residents[i], t)), t, pc)
    ensures i in s'.residents && SleeperOk(s', t, i)
  {
  }

  lemma GrantedOk(s: State, s': State, t: Task, i: Inst, now: int)
    requires i in s.residents && t in s.tasks && Works(s.tasks[t], i) && PcOk(s, t) && InstOk(s, i)
    requires s.tasks[t].Acquire? || (s.tasks[t].Asleep? && t !in s.residents[i].waiters)
    requires Admission(s.residents[i], false, false) == Granted
    requires s' == Goto(Touch(s, i, Grant(s.residents[i], t, now)), t, Serving(i))
    ensures Lands(s, s', i, Grant(s.residents[i], t, now), t, Serving(i))
  {
    GrantOk(s.residents[i], t, now, false, false);
  }

  lemma AttemptKeeps(s: State, s': State, t: Task, now: int)
    requires Inv(s) && Attempting(s, t) && s' == DoAttempt(s, t, now)
    ensures Inv(s')
  {
    var i := s.tasks[t].i;
    var pc, r := s.tasks[t], s.residents[i];
    hide Inv, PcOk, InstOk, Lands, Sleep, Grant;
    InvAt(s, t, i);
    match VerdictFor(s, t)
    case Refused =>
      RefusedOk(s, s', t, i, TurnedAway(pc.m, i, pc.follower));
      RunKeeps(s, s', i, r, t, TurnedAway(pc.m, i, pc.follower));
    case Full =>
      SleepOk(s, s', t, i, Asleep(pc.m, i, pc.follower));
      RunKeeps(s, s', i, Sleep(r, t), t, Asleep(pc.m, i, pc.follower));
    case Granted =>
      GrantedOk(s, s', t, i, now);
      RunKeeps(s, s', i, Grant(r, t, now), t, Serving(i));
  }

  lemma ReleasedOk(s: State, s': State, t: Task, i: Inst, now: int, g: Resident)
    requires i in s.residents && t in s.tasks && s.tasks[t] == Serving(i) && PcOk(s, t) && InstOk(s, i)
    requires g == Release(s.residents[i], t, now) && s' == Goto(Touch(s, i, g), t, Returned)
    ensures Lands(s, s', i, g, t, Returned)
  {
    hide Release, Evolves, ResidentOk, TimerOk, GuardedOk, SleeperOk, SleepersOk, Registered, Blocked;
    ReturnedOk(s', t);
    ServingHolds(s, t);
    ReleaseParts(s, s', t, i, now, g);
    hide PcOk, InstOk;
  }

  lemma ReturnedOk(s: State, t: Task)
    requires t in s.tasks && s.tasks[t] == Returned
    ensures PcOk(s, t)
  {
  }

  lemma ServingHolds(s: State, t: Task)
    requires t in s.tasks && s.tasks[t].Serving? && PcOk(s, t)
    ensures s.tasks[t].i in s.residents && t in s.residents[s.tasks[t].i].grants
  {
  }

  lemma ReleaseParts(s: State, s': State, t: Task, i: Inst, now: int, g: Resident)
    requires i in s.residents && InstOk(s, i) && t in s.residents[i].grants && t in s.tasks && s.tasks[t] == Serving(i)
    requires g == Release(s.residents[i], t, now) && s' == Goto(Touch(s, i, g), t, Returned)
    ensures i in s'.residents && TimerOk(s', i) && SleeperOk(s', t, i) && GuardedOk(s', i)
    ensures ResidentOk(g) && Evolves(s.residents[i], g, t) && (!g.stopped ==> g.ledger.drainedBy.None?)
  {
    ReleaseOk(s.residents[i], t, now);
    ReleaseLedger(s.residents[i], t, now);
    ReleaseTimer(s, s', t, i, now, g);
    hide Release, ResidentOk, Evolves, TimerOk;
  }

  lemma ReleaseLedger(r: Resident, t: Task, now: int)
    ensures var g := Release(r, t, now);
            g.ledger == r.ledger && g.stopped == r.stopped && g.draining == r.draining && t !in g.grants
  {
  }

  lemma ReleaseTimer(s: State, s': State, t: Task, i: Inst, now: int, g: Resident)
    requires i in s.residents && InstOk(s, i) && t in s.residents[i].grants && t in s.tasks && s.tasks[t] == Serving(i)
    requires g == Release(s.residents[i], t, now) && s' == Goto(Touch(s, i, g), t, Returned)
    ensures i in s'.residents && TimerOk(s', i)
  {
    hide SleepersOk, GuardedOk, Registered, Blocked;
  }

  lemma ReleaseKeeps(s: State, s': State, t: Task, i: Inst, now: int)
    requires Inv(s) && At(s, t) && i in s.residents && s.tasks[t] == Serving(i)
    requires s' == Goto(Touch(s, i, Release(s.residents[i], t, now)), t, Returned)
    ensures Inv(s')
  {
    InvAt(s, t, i);
    hide *;
    ReleasedOk(s, s', t, i, now, Release(s.residents[i], t, now));
    RunKeeps(s, s', i, Release(s.residents[i], t, now), t, Returned);
  }

  // ----- drainAndStop and onInstanceIdleTimeout

  lemma DrainWaitOk(s: State, s': State, t: Task, i: Inst, r: Resident, pc: Pc)
    requires i in s.residents && DrainReady(s, t) && s.tasks[t].i == i && PcOk(s, t) && InstOk(s, i)
    requires DrainDecision(s.residents[i]) == MustWait && s' == DoDrain(s, t)
    requires r == DrainPass(s.residents[i], t, s.tasks[t].Drain?) && pc == DrainAsleep(i, s.tasks[t].next)
    ensures Lands(s, s', i, r, t, pc)
  {
    hide Evolves, ResidentOk, TimerOk, GuardedOk, SleepersOk, SleeperOk, ThenOk, DrainPass, Registered, Blocked, PcOk, InstOk;
    InstParts(s, i);
    DrainingFacts(s, t);
    DrainPassOk(s.residents[i], t, s.tasks[t].Drain?);
    DrainWaitParts(s, s', i, r, t, pc);
    DrainWaitPc(s, s', i, r, t, pc);
  }

  lemma DrainWaitPc(s: State, s': State, i: Inst, r: Resident, t: Task, pc: Pc)
    requires i in s.residents && t in s.tasks && IsDraining(s.tasks[t], i) && s' == Goto(Touch(s, i, r), t, pc)
    requires r == DrainPass(s.residents[i], t, s.tasks[t].Drain?) && pc == DrainAsleep(i, s.tasks[t].next) && r.draining
    requires ThenOk(s, i, s.tasks[t].next)
    ensures t in s'.tasks && PcOk(s', t)
  {
    hide PcOk, DrainPass, ThenOk;
    DrainPassFlags(s.residents[i], t, s.tasks[t].Drain?);
    DrainThen(s, s', i, s.tasks[t].next);
    DrainAsleepPc(s', t);
  }

  lemma DrainingFacts(s: State, t: Task)
    requires t in s.tasks && (s.tasks[t].Drain? || s.tasks[t].DrainAsleep?) && PcOk(s, t)
    ensures ThenOk(s, s.tasks[t].i, s.tasks[t].next)
    ensures s.tasks[t].DrainAsleep? ==> s.tasks[t].i in s.residents && s.residents[s.tasks[t].i].draining
  {
  }

  lemma DrainPassFlags(r: Resident, t: Task, entering: bool)
    ensures var g := DrainPass(r, t, entering); (r.draining ==> g.draining) && (r.stopped ==> g.stopped)
  {
  }

  lemma DrainAsleepPc(s: State, t: Task)
    requires t in s.tasks && s.tasks[t].DrainAsleep? && s.tasks[t].i in s.residents && s.residents[s.tasks[t].i].draining
    requires ThenOk(s, s.tasks[t].i, s.tasks[t].next)
    ensures PcOk(s, t)
  {
  }

  lemma DrainWaitParts(s: State, s': State, i: Inst, r: Resident, t: Task, pc: Pc)
    requires i in s.residents && ResidentOk(s.residents[i]) && t in s.tasks && IsDraining(s.tasks[t], i) && SleepersOk(s, i)
    requires DrainDecision(s.residents[i]) == MustWait && (s.tasks[t].Drain? || s.residents[i].draining)
    requires r == DrainPass(s.residents[i], t, s.tasks[t].Drain?) && pc.DrainAsleep? && pc.i == i
    requires s' == Goto(Touch(s, i, r), t, pc)
    ensures i in s'.residents && SleeperOk(s', t, i) && GuardedOk(s', i) && TimerOk(s', i)
    ensures !r.stopped && r.draining && r.ledger.drainedBy == s.residents[i].ledger.drainedBy
  {
  }

  lemma DrainStopOk(s: State, s': State, t: Task, i: Inst, r: Resident, pc: Pc)
    requires i in s.residents && DrainReady(s, t) && s.tasks[t].i == i && PcOk(s, t) && InstOk(s, i)
    requires DrainDecision(s.residents[i]) == MustStop && s' == DoDrain(s, t)
    requires r == DrainPass(s.residents[i], t, s.tasks[t].Drain?) && pc == Unregistering(i, s.tasks[t].next)
    ensures Lands(s, s', i, r, t, pc)
  {
    hide Evolves, ResidentOk, TimerOk, GuardedOk, SleepersOk, SleeperOk, ThenOk, DrainPass, Registered, Blocked, WinnerOk;
    InstParts(s, i);
    DrainingFacts(s, t);
    DrainPassOk(s.residents[i], t, s.tasks[t].Drain?);
    DrainPassFlags(s.residents[i], t, s.tasks[t].Drain?);
    DrainStopParts(s, s', i, r, t, pc);
    DrainThen(s, s', i, s.tasks[t].next);
    UnregisteringPc(s', t);
    hide PcOk, InstOk;
  }

  lemma DrainStopParts(s: State, s': State, i: Inst, r: Resident, t: Task, pc: Pc)
    requires i in s.residents && ResidentOk(s.residents[i]) && t in s.tasks && IsDraining(s.tasks[t], i) && SleepersOk(s, i)
    requires DrainDecision(s.residents[i]) == MustStop && (i in s.drained ==> s.residents[i].stopped)
    requires s.tasks[t].Drain? || s.residents[i].draining
    requires r == DrainPass(s.residents[i], t, s.tasks[t].Drain?) && pc.Unregistering? && pc.i == i
    requires s' == Goto(Touch(s, i, r), t, pc)
    ensures i in s'.residents && SleeperOk(s', t, i) && GuardedOk(s', i) && TimerOk(s', i) && WinnerOk(s', t, i)
    ensures r.stopped
  {
    assert s.residents[i].grants == {};
  }

  lemma UnregisteringPc(s: State, t: Task)
    requires t in s.tasks && s.tasks[t].Unregistering? && WinnerOk(s, t, s.tasks[t].i)
    requires ThenOk(s, s.tasks[t].i, s.tasks[t].next)
    ensures PcOk(s, t)
  {
  }

  lemma DrainNoopOk(s: State, s': State, t: Task, i: Inst, r: Resident, pc: Pc)
    requires i in s.residents && DrainReady(s, t) && s.tasks[t].i == i && PcOk(s, t) && InstOk(s, i)
    requires DrainDecision(s.residents[i]) == AlreadyStopped && s' == DoDrain(s, t)
    requires r == DrainPass(s.residents[i], t, s.tasks[t].Drain?) && pc == AfterDrain(s.tasks[t].next)
    ensures Lands(s, s', i, r, t, pc)
  {
    assert s.residents[i := s.residents[i]] == s.residents;
    AfterDrainOk(s, s', t, i, s.tasks[t].next);
  }

  lemma DrainThen(s: State, s': State, i: Inst, next: Then)
    requires ThenOk(s, i, next) && s'.loads == s.loads && s'.alive == s.alive
    requires forall j | j in s.residents ::
               j in s'.residents && (s.residents[j].stopped ==> s'.residents[j].stopped)
               && (s.residents[j].draining ==> s'.residents[j].draining)
    ensures ThenOk(s', i, next)
  {
  }

  /** Whoever is told that a drain is over finds the Instance stopped. */
  lemma AfterDrainOk(s: State, s': State, t: Task, i: Inst, next: Then)
    requires ThenOk(s, i, next) && i in s.residents && s.residents[i].stopped
    requires s'.residents == s.residents && s'.loads == s.loads && s'.alive == s.alive
    requires t in s'.tasks && s'.tasks[t] == AfterDrain(next)
    ensures PcOk(s', t)
  {
  }

  lemma DrainKeeps(s: State, s': State, t: Task)
    requires Inv(s) && DrainReady(s, t) && s' == DoDrain(s, t)
    ensures Inv(s')
  {
    var i, pc := s.tasks[t].i, s.tasks[t];
    var r := s.residents[i];
    InvAt(s, t, i);
    var r' := DrainPass(r, t, pc.Drain?);
    var v := DrainDecision(r);
    hide *;
    match v
    case AlreadyStopped => DrainNoopOk(s, s', t, i, r', AfterDrain(pc.next)); RunKeeps(s, s', i, r', t, AfterDrain(pc.next));
    case MustWait => DrainWaitOk(s, s', t, i, r', DrainAsleep(i, pc.next)); RunKeeps(s, s', i, r', t, DrainAsleep(i, pc.next));
    case MustStop => DrainStopOk(s, s', t, i, r', Unregistering(i, pc.next)); RunKeeps(s, s', i, r', t, Unregistering(i, pc.next));
  }

  lemma IdleCallbackOk(s: State, s': State, t: Task, i: Inst, r: Resident, pc: Pc)
    requires i in s.residents && t in s.tasks && s.tasks[t] == IdleCallback(i) && PcOk(s, t) && InstOk(s, i)
    requires r == IdleCallbackPass(s.residents[i], t)
    requires pc == if IdleCallbackActs(s.residents[i]) then Drain(i, ThenReturn) else Returned
    requires s' == Goto(Touch(s, i, r), t, pc)
    ensures Lands(s, s', i, r, t, pc)
  {
    hide ResidentOk, Evolves, GuardedOk, SleepersOk, Registered, Blocked;
    InstParts(s, i);
    QuietSectionsOk(s.residents[i], t, 0);
    NotRelied(s, s', i, r, t, pc);
    IdleCallbackPc(s', t);
    IdleTimer(s, s', t, i, r, pc);
    hide PcOk, InstOk, TimerOk, IdleCallbackActs;
  }

  lemma IdleCallbackPc(s: State, t: Task)
    requires t in s.tasks
    requires s.tasks[t] == Returned || (s.tasks[t].Drain? && s.tasks[t].i in s.residents && s.tasks[t].next == ThenReturn)
    ensures PcOk(s, t)
  {
  }

  lemma IdleTimer(s: State, s': State, t: Task, i: Inst, r: Resident, pc: Pc)
    requires i in s.residents && t in s.tasks && s.tasks[t] == IdleCallback(i) && ResidentOk(s.residents[i])
    requires SleepersOk(s, i) && TimerOk(s, i) && r == IdleCallbackPass(s.residents[i], t)
    requires pc == if IdleCallbackActs(s.residents[i]) then Drain(i, ThenReturn) else Returned
    requires s' == Goto(Touch(s, i, r), t, pc)
    ensures i in s'.residents && TimerOk(s', i) && SleeperOk(s', t, i)
    ensures r.ledger.drainedBy == s.residents[i].ledger.drainedBy && r.stopped == s.residents[i].stopped
  {
  }

  lemma IdleCallbackKeeps(s: State, s': State, t: Task)
    requires Inv(s) && At(s, t) && s.tasks[t].IdleCallback? && s.tasks[t].i in s.residents && s' == DoIdleCallback(s, t)
    ensures Inv(s')
  {
    var i := s.tasks[t].i;
    InvAt(s, t, i);
    var r := IdleCallbackPass(s.residents[i], t);
    var pc := if IdleCallbackActs(s.residents[i]) then Drain(i, ThenReturn) else Returned;
    assert s' == Goto(Touch(s, i, r), t, pc);
    hide *;
    IdleCallbackOk(s, s', t, i, r, pc);
    RunKeeps(s, s', i, r, t, pc);
  }

  lemma FireTimerOk(s: State, s': State, t: Task, i: Inst, r: Resident)
    requires t !in s.tasks && i in s.residents && InstOk(s, i)
    requires r == TimerFires(s.residents[i], t) && s' == Goto(Touch(s, i, r), t, IdleCallback(i))
    ensures Lands(s, s', i, r, t, IdleCallback(i))
  {
    hide ResidentOk, Evolves, GuardedOk, SleepersOk, Registered, Blocked;
    InstParts(s, i);
    QuietSectionsOk(s.residents[i], t, 0);
    NotRelied(s, s', i, r, t, IdleCallback(i));
    FireTimerParts(s, s', t, i, r);
    hide PcOk, InstOk, TimerOk;
  }

  lemma FireTimerParts(s: State, s': State, t: Task, i: Inst, r: Resident)
    requires t !in s.tasks && i in s.residents && SleepersOk(s, i) && TimerOk(s, i)
    requires r == TimerFires(s.residents[i], t) && s' == Goto(Touch(s, i, r), t, IdleCallback(i))
    ensures PcOk(s', t) && i in s'.residents && TimerOk(s', i) && SleeperOk(s', t, i)
  {
  }

  lemma FireTimerKeeps(s: State, s': State, t: Task, i: Inst)
    requires Inv(s) && t !in s.tasks && i in s.residents
    requires s' == Goto(Touch(s, i, TimerFires(s.residents[i], t)), t, IdleCallback(i))
    ensures Inv(s')
  {
    InvInst(s, i);
    hide *;
    FireTimerOk(s, s', t, i, TimerFires(s.residents[i], t));
    RunKeeps(s, s', i, TimerFires(s.residents[i], t), t, IdleCallback(i));
  }

  lemma InstParts(s: State, i: Inst)
    requires i in s.residents && InstOk(s, i)
    ensures ResidentOk(s.residents[i]) && SleepersOk(s, i) && GuardedOk(s, i) && TimerOk(s, i)
    ensures i in s.drained ==> s.residents[i].stopped
    ensures !s.residents[i].stopped ==> s.residents[i].ledger.drainedBy.None?
  {
  }

  lemma InvInst(s: State, i: Inst)
    requires Inv(s) && i in s.residents
    ensures InstOk(s, i)
  {
  }

  // ----- SetModelTTL and the broadcast for a cancelled sleeper

  lemma ChangeTtlOk(s: State, s': State, i: Inst, r: Resident, d: int)
    requires i in s.residents && InstOk(s, i) && r == SetTtl(s.residents[i], d) && s' == Touch(s, i, r)
    ensures InstOk(s', i) && forall t :: Evolves(s.residents[i], r, t)
  {
  }

  lemma ChangeTtlKeeps(s: State, s': State, i: Inst, d: int)
    requires Inv(s) && i in s.residents && s' == Touch(s, i, SetTtl(s.residents[i], d))
    ensures Inv(s')
  {
    InvInst(s, i);
    hide *;
    ChangeTtlOk(s, s', i, SetTtl(s.residents[i], d), d);
    QuietKeeps(s, s', i, SetTtl(s.residents[i], d));
  }

  lemma BroadcastOk(s: State, s': State, i: Inst, r: Resident)
    requires i in s.residents && InstOk(s, i) && r == Broadcast(s.residents[i]) && s' == Touch(s, i, r)
    ensures InstOk(s', i) && forall t :: Evolves(s.residents[i], r, t)
  {
  }

  lemma BroadcastKeeps(s: State, s': State, i: Inst)
    requires Inv(s) && i in s.residents && s' == Touch(s, i, Broadcast(s.residents[i]))
    ensures Inv(s')
  {
    InvInst(s, i);
    hide *;
    BroadcastOk(s, s', i, Broadcast(s.residents[i]));
    QuietKeeps(s, s', i, Broadcast(s.residents[i]));
  }
}
