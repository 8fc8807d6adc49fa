/** The actions of a loader keep the invariant. */
module LifecycleLoads {
  import opened Options
  import opened Residents
  import opened Lifecycle
  import opened LifecycleInvariant
  import opened LifecycleSteps
  import opened LifecycleActions
  import opened LifecycleRequests

  // ----- Starting a load

  lemma BeginFrames(s: State, s': State, t: Task, m: Model, l: LoadId)
    requires s' == BeginLoad(s, t, m, l) && l !in s.loads && m !in s.loading && s.mu.None?
    requires s.residents.Keys <= s.owner.Keys
    ensures TasksFrame(s, s', t) && InstsFrame(s, s', t) && LoadsFrame(s, s', t)
  {
  }

  lemma BeginRegistry(s: State, s': State, t: Task, m: Model, l: LoadId)
    requires RegistryOk(s) && s' == BeginLoad(s, t, m, l) && l !in s.loads && m !in s.loading && m !in s.instances
    requires s.mu.None?
    ensures RegistryOk(s')
  {
    forall k | k in s'.loading
      ensures Loads(s', k)
    {
      assert k != m ==> Loads(s, k);
    }
  }

  lemma BeginOthers(s: State, s': State, t: Task, m: Model, l: LoadId)
    requires LoadsOk(s) && s' == BeginLoad(s, t, m, l) && l !in s.loads && t in s.tasks && s.tasks[t] == Retry(m)
    ensures forall i | i in s'.residents :: UntouchedInst(s, s', t, i)
    ensures forall i | i in s'.owner :: UntouchedProc(s, s', t, i)
    ensures forall k | k in s'.loads :: UntouchedLoad(s, s', t, k) || LoadOk(s', k)
  {
    forall k | k in s'.loads && k != l
      ensures UntouchedLoad(s, s', t, k)
    {
      assert LoadOk(s, k);
    }
    assert LoadOk(s', l);
  }

  lemma LaunchingPc(s: State, t: Task)
    requires t in s.tasks && s.tasks[t].Launching? && LoaderOk(s, t, s.tasks[t].m, s.tasks[t].l)
    ensures PcOk(s, t)
  {
  }

  lemma BeginKeeps(s: State, s': State, t: Task, m: Model, l: LoadId)
    requires Inv(s) && t in s.tasks && s.tasks[t] == Retry(m) && s.mu.None?
    requires m !in s.instances && m !in s.loading && l !in s.loads && s' == BeginLoad(s, t, m, l)
    ensures Inv(s')
  {
    InvRegistry(s);
    LaunchingPc(s', t);
    hide *;
    BeginFrames(s, s', t, m, l);
    BeginRegistry(s, s', t, m, l);
    BeginOthers(s, s', t, m, l);
    StepKeeps(s, s', t);
  }

  lemma MarkDeadOk(s: State, s': State, i: Inst, r: Resident)
    requires i in s.residents && InstOk(s, i) && i !in s.alive
    requires r == MarkStopped(s.residents[i]) && s' == Touch(s, i, r)
    ensures InstOk(s', i) && forall t :: Evolves(s.residents[i], r, t)
  {
  }

  /** The registry drops an Instance whose process is gone. */
  lemma DropDeadKeeps(s: State, s1: State, s': State, i: Inst)
    requires Inv(s) && i in s.residents && i !in s.alive && s.mu.None?
    requires s1 == Touch(s, i, MarkStopped(s.residents[i])) && s' == Forget(s1, i)
    ensures Inv(s')
  {
    hide Inv, InstOk, Registered, Evolves;
    InvInst(s, i);
    MarkDeadOk(s, s1, i, MarkStopped(s.residents[i]));
    QuietKeeps(s, s1, i, MarkStopped(s.residents[i]));
    ForgetKeeps(s1, s', i);
  }

  lemma DroppedFacts(s: State, s': State, m: Model)
    requires Inv(s) && m in s.instances && s.instances[m] in s.residents && s' == DropDead(s, s.instances[m])
    ensures s'.tasks == s.tasks && s'.loads == s.loads && s'.loading == s.loading && s'.mu == s.mu && m !in s'.instances
  {
    hide Inv, MarkStopped;
    MarkedModel(s.residents[s.instances[m]], 0);
    EntryOk(s, m);
  }

  lemma EnterDeadKeeps(s: State, s': State, t: Task, l: LoadId)
    requires Inv(s) && RequestEnabled(s, EnterDead(t, l)) && s' == ApplyRequest(s, EnterDead(t, l))
    ensures Inv(s')
  {
    var m := s.tasks[t].m;
    var i := s.instances[m];
    var s1 := Touch(s, i, MarkStopped(s.residents[i]));
    hide Inv, Registered;
    DropDeadKeeps(s, s1, DropDead(s, i), i);
    DroppedFacts(s, DropDead(s, i), m);
    BeginKeeps(DropDead(s, i), s', t, m, l);
  }

  // ----- Processes before publication

  lemma LaunchFrames(s: State, s': State, t: Task, i: Inst)
    requires t in s.tasks && s.tasks[t].Launching? && i !in s.owner && s' == ApplyLoader(s, Launch(t, i))
    requires s.residents.Keys <= s.owner.Keys && s.mu != Some(t)
    ensures TasksFrame(s, s', t) && InstsFrame(s, s', t) && LoadsFrame(s, s', t)
  {
  }

  lemma LaunchRegistry(s: State, s': State, t: Task, i: Inst)
    requires t in s.tasks && s.tasks[t].Launching? && i !in s.owner && s' == ApplyLoader(s, Launch(t, i))
    requires RegistryOk(s)
    ensures RegistryOk(s') && s.mu != Some(t)
  {
    forall k | k in s'.loading
      ensures Loads(s', k)
    {
      assert Loads(s, k);
    }
  }

  lemma LaunchOthers(s: State, s': State, t: Task, i: Inst)
    requires t in s.tasks && s.tasks[t].Launching? && i !in s.owner && s' == ApplyLoader(s, Launch(t, i))
    requires LoadsOk(s)
    ensures forall j | j in s'.residents :: UntouchedInst(s, s', t, j)
    ensures forall j | j in s'.owner :: UntouchedProc(s, s', t, j) || ProcOk(s', j)
    ensures forall l | l in s'.loads :: UntouchedLoad(s, s', t, l)
  {
    forall l | l in s'.loads
      ensures UntouchedLoad(s, s', t, l)
    {
      assert LoadOk(s, l);
    }
    assert ProcOk(s', i);
  }

  lemma LaunchPc(s: State, s': State, t: Task, i: Inst)
    requires t in s.tasks && s.tasks[t].Launching? && i !in s.owner && s' == ApplyLoader(s, Launch(t, i))
    requires PcOk(s, t) && s.residents.Keys <= s.owner.Keys
    ensures t in s'.tasks && PcOk(s', t)
  {
  }

  lemma LaunchKeeps(s: State, s': State, t: Task, i: Inst)
    requires Inv(s) && LoaderEnabled(s, Launch(t, i)) && s' == ApplyLoader(s, Launch(t, i))
    ensures Inv(s')
  {
    InvRegistry(s);
    InvPc(s, t);
    hide Inv, PcOk, RegistryOk, TasksFrame, InstsFrame, LoadsFrame, UntouchedInst, UntouchedLoad, UntouchedProc, ProcOk;
    LaunchRegistry(s, s', t, i);
    LaunchFrames(s, s', t, i);
    LaunchOthers(s, s', t, i);
    LaunchPc(s, s', t, i);
    StepKeeps(s, s', t);
  }

  /** A process on which `Stop` was called may be let go. */
  lemma LetGoOthers(s: State, s': State, t: Task, pc: Pc)
    requires LoadsOk(s) && t in s.tasks && (s.tasks[t].Probing? || s.tasks[t].Discarding?) && s.tasks[t].i in s.stopIssued
    requires s' == Goto(s, t, pc)
    requires s.tasks[t].Probing? ==> pc == Launching(s.tasks[t].m, s.tasks[t].l)
    requires s.tasks[t].Discarding? ==> pc == Returned
    ensures forall i | i in s'.residents :: UntouchedInst(s, s', t, i)
    ensures forall i | i in s'.owner :: UntouchedProc(s, s', t, i)
    ensures forall l | l in s'.loads :: UntouchedLoad(s, s', t, l)
  {
    forall l | l in s'.loads
      ensures UntouchedLoad(s, s', t, l)
    {
      assert LoadOk(s, l);
    }
  }

  lemma LetGoPc(s: State, s': State, t: Task, pc: Pc)
    requires RegistryOk(s) && t in s.tasks && (s.tasks[t].Probing? || s.tasks[t].Discarding?) && PcOk(s, t)
    requires s' == Goto(s, t, pc)
    requires s.tasks[t].Probing? ==> pc == Launching(s.tasks[t].m, s.tasks[t].l)
    requires s.tasks[t].Discarding? ==> pc == Returned
    ensures t in s'.tasks && PcOk(s', t) && s.mu != Some(t)
  {
  }

  lemma LetGoKeeps(s: State, s1: State, s': State, t: Task, pc: Pc)
    requires Inv(s) && t in s.tasks && (s.tasks[t].Probing? || s.tasks[t].Discarding?)
    requires s1 == s.(stopIssued := s.stopIssued + {s.tasks[t].i}) && s' == Goto(s1, t, pc)
    requires s.tasks[t].Probing? ==> pc == Launching(s.tasks[t].m, s.tasks[t].l)
    requires s.tasks[t].Discarding? ==> pc == Returned
    ensures Inv(s')
  {
    hide Inv, PcOk, RegistryOk, LoadsOk, PcsOk, UntouchedInst, UntouchedLoad, UntouchedProc;
    ProgressKeeps(s, s1);
    InvRegistry(s1);
    InvPc(s1, t);
    LetGoOthers(s1, s', t, pc);
    LetGoPc(s1, s', t, pc);
    GotoKeeps(s1, s', t, pc);
  }

  // ----- Settling a load without an Instance

  /** The end of a load that publishes nothing; `pc` is where its loader goes on. */
  predicate SettlesEmpty(s: State, s': State, t: Task, pc: Pc) {
    && t in s.tasks && (s.tasks[t].Launching? || s.tasks[t].Probing? || s.tasks[t].Settling?)
    && (if s.tasks[t].Settling? then s.mu == Some(t) else s.mu.None?)
    && s.tasks[t].l in s.loads
    && pc == (if s.tasks[t].Launching? then Returned else Discarding(s.tasks[t].i))
    && s' == Goto(CloseReady(s, s.tasks[t].l, None), t, pc).(mu := None)
  }

  lemma SettleFrames(s: State, s': State, t: Task, pc: Pc)
    requires SettlesEmpty(s, s', t, pc) && LoaderOk(s, t, s.tasks[t].m, s.tasks[t].l)
    requires s.tasks[t].Settling? ==> s.tasks[t].m !in s.loading
    requires s.residents.Keys <= s.owner.Keys
    ensures TasksFrame(s, s', t) && InstsFrame(s, s', t) && LoadsFrame(s, s', t)
  {
  }

  lemma SettleRegistry(s: State, s': State, t: Task, pc: Pc)
    requires SettlesEmpty(s, s', t, pc) && LoaderOk(s, t, s.tasks[t].m, s.tasks[t].l) && RegistryOk(s)
    ensures RegistryOk(s')
  {
    forall k | k in s'.loading
      ensures Loads(s', k)
    {
      assert Loads(s, k);
    }
  }

  lemma SettleOthers(s: State, s': State, t: Task, pc: Pc)
    requires SettlesEmpty(s, s', t, pc) && LoadsOk(s) && !s.loads[s.tasks[t].l].ready
    ensures forall i | i in s'.residents :: UntouchedInst(s, s', t, i)
    ensures forall i | i in s'.owner :: UntouchedProc(s, s', t, i)
    ensures forall k | k in s'.loads :: UntouchedLoad(s, s', t, k) || LoadOk(s', k)
  {
    var l := s.tasks[t].l;
    forall k | k in s'.loads && k != l
      ensures UntouchedLoad(s, s', t, k)
    {
      assert LoadOk(s, k);
    }
    assert LoadOk(s, l);
    assert LoadOk(s', l);
  }

  lemma SettlePc(s: State, s': State, t: Task, pc: Pc)
    requires SettlesEmpty(s, s', t, pc) && PcOk(s, t)
    ensures t in s'.tasks && PcOk(s', t)
    ensures LoaderOk(s, t, s.tasks[t].m, s.tasks[t].l) && !s.loads[s.tasks[t].l].ready
    ensures s.tasks[t].Settling? ==> s.tasks[t].m !in s.loading
  {
    hide PcOk;
    LoaderFacts(s, t);
    if pc.Discarding? {
      DiscardingPc(s', t);
    } else {
      ReturnedOk(s', t);
    }
  }

  lemma LoaderFacts(s: State, t: Task)
    requires t in s.tasks && (s.tasks[t].Launching? || s.tasks[t].Probing? || s.tasks[t].Settling?) && PcOk(s, t)
    ensures LoaderOk(s, t, s.tasks[t].m, s.tasks[t].l)
    ensures s.tasks[t].Settling? ==> s.tasks[t].m !in s.loading
    ensures !s.tasks[t].Launching? ==> s.tasks[t].i in s.owner && s.owner[s.tasks[t].i] == t && s.tasks[t].i !in s.residents
  {
  }

  lemma DiscardingPc(s: State, t: Task)
    requires t in s.tasks && s.tasks[t].Discarding?
    requires s.tasks[t].i in s.owner && s.owner[s.tasks[t].i] == t && s.tasks[t].i !in s.residents
    ensures PcOk(s, t)
  {
  }

  lemma SettleKeeps(s: State, s': State, t: Task, pc: Pc)
    requires Inv(s) && SettlesEmpty(s, s', t, pc)
    ensures Inv(s')
  {
    assert t in s.tasks;
    InvRegistry(s);
    InvPc(s, t);
    hide *;
    SettlePc(s, s', t, pc);
    SettleFrames(s, s', t, pc);
    SettleRegistry(s, s', t, pc);
    SettleOthers(s, s', t, pc);
    StepKeeps(s, s', t);
  }

  // ----- Settling a load with an Instance

  predicate TakesRoom(s: State, s': State, t: Task) {
    && t in s.tasks && s.tasks[t].Probing? && s.mu.None? && !s.closed
    && (s.cap > 0 ==> |s.instances| < s.cap)
    && s' == TakeMu(s, t, Settling(s.tasks[t].m, s.tasks[t].l, s.tasks[t].i)).(loading := s.loading - {s.tasks[t].m})
  }

  lemma RoomFrames(s: State, s': State, t: Task)
    requires TakesRoom(s, s', t) && LoaderOk(s, t, s.tasks[t].m, s.tasks[t].l) && s.residents.Keys <= s.owner.Keys
    ensures TasksFrame(s, s', t) && InstsFrame(s, s', t) && LoadsFrame(s, s', t)
  {
  }

  lemma ShrinkRegistry(s: State, s': State, m: Model)
    requires RegistryOk(s) && s' == s.(loading := s.loading - {m})
    ensures RegistryOk(s')
  {
    forall k | k in s'.loading
      ensures Loads(s', k)
    {
      assert Loads(s, k);
    }
  }

  lemma MuRegistry(s: State, s': State, t: Task, pc: Pc)
    requires RegistryOk(s) && s.mu.None? && !s.closed && HoldsMu(pc) && s' == TakeMu(s, t, pc)
    ensures RegistryOk(s')
  {
    forall k | k in s'.loading
      ensures Loads(s', k)
    {
      assert Loads(s, k);
    }
  }

  lemma RoomRegistry(s: State, s': State, t: Task)
    requires TakesRoom(s, s', t) && RegistryOk(s)
    ensures RegistryOk(s')
  {
    var s1 := s.(loading := s.loading - {s.tasks[t].m});
    hide RegistryOk;
    ShrinkRegistry(s, s1, s.tasks[t].m);
    MuRegistry(s1, s', t, Settling(s.tasks[t].m, s.tasks[t].l, s.tasks[t].i));
  }

  lemma RoomOthers(s: State, s': State, t: Task)
    requires TakesRoom(s, s', t) && LoadsOk(s)
    ensures forall k | k in s'.loads :: UntouchedLoad(s, s', t, k)
  {
    forall k | k in s'.loads
      ensures UntouchedLoad(s, s', t, k)
    {
      assert LoadOk(s, k);
    }
  }

  lemma RoomInsts(s: State, s': State, t: Task)
    requires TakesRoom(s, s', t)
    ensures forall i | i in s'.residents :: UntouchedInst(s, s', t, i)
    ensures forall i | i in s'.owner :: UntouchedProc(s, s', t, i)
  {
  }

  lemma RoomPc(s: State, s': State, t: Task)
    requires TakesRoom(s, s', t) && PcOk(s, t) && RegistryOk(s)
    ensures t in s'.tasks && PcOk(s', t) && LoaderOk(s, t, s.tasks[t].m, s.tasks[t].l)
  {
  }

  lemma RoomKeeps(s: State, s': State, t: Task)
    requires Inv(s) && TakesRoom(s, s', t)
    ensures Inv(s')
  {
    assert t in s.tasks;
    InvRegistry(s);
    InvPc(s, t);
    hide *;
    RoomPc(s, s', t);
    RoomFrames(s, s', t);
    RoomRegistry(s, s', t);
    RoomOthers(s, s', t);
    RoomInsts(s, s', t);
    StepKeeps(s, s', t);
  }

  lemma VictimOk(s: State, s': State, i: Inst, d: Task, r: Resident)
    requires i in s.residents && InstOk(s, i) && d in s.tasks && s.tasks[d] == Drain(i, ThenReturn)
    requires r == MarkEvicted(s.residents[i], d) && s' == Touch(s, i, r)
    ensures InstOk(s', i) && forall t :: Evolves(s.residents[i], r, t)
  {
  }

  /** Eviction by the cap: the victim leaves the registry with a drain on its way. */
  lemma EvictVictimKeeps(s: State, s1: State, s2: State, s': State, i: Inst, d: Task)
    requires Inv(s) && i in s.residents && d !in s.tasks && s.mu.None?
    requires s1 == Goto(s, d, Drain(i, ThenReturn)) && s2 == Touch(s1, i, MarkEvicted(s.residents[i], d))
    requires s' == Forget(s2, i)
    ensures Inv(s')
  {
    hide Inv, InstOk, Evolves, Registered;
    ArrivalKeeps(s, s1, d, Drain(i, ThenReturn));
    InvInst(s1, i);
    VictimOk(s1, s2, i, d, MarkEvicted(s.residents[i], d));
    QuietKeeps(s1, s2, i, MarkEvicted(s.residents[i], d));
    ForgetKeeps(s2, s', i);
  }

  lemma MarkedModel(r: Resident, d: Task)
    ensures MarkEvicted(r, d).model == r.model && MarkStopped(r).model == r.model
  {
  }

  lemma EvictedFacts(s: State, s': State, victim: Model, d: Task)
    requires Inv(s) && victim in s.instances && s.instances[victim] in s.residents && d !in s.tasks
    requires s' == EvictVictim(s, s.instances[victim], d)
    ensures |s'.instances| == |s.instances| - 1
    ensures s'.mu == s.mu && s'.closed == s.closed && s'.cap == s.cap && s'.loading == s.loading
    ensures s'.tasks == s.tasks[d := Drain(s.instances[victim], ThenReturn)]
  {
    hide Inv, MarkEvicted;
    MarkedModel(s.residents[s.instances[victim]], d);
    EntryOk(s, victim);
    FewerEntries(s.instances, victim);
  }

  lemma CapKept(s: State)
    requires Inv(s)
    ensures s.cap > 0 ==> |s.instances| <= s.cap
  {
  }

  // ----- Scanning for the victim

  /** The loader takes the registry lock to scan, scans on, or is back where it was before. */
  predicate ScanMove(s: State, s': State, t: Task, pc: Pc) {
    && t in s.tasks && (s.tasks[t].Probing? || s.tasks[t].Scanning?) && (pc.Probing? || pc.Scanning?)
    && pc.m == s.tasks[t].m && pc.l == s.tasks[t].l && pc.i == s.tasks[t].i
    && !s.closed && 0 < s.cap <= |s.instances| && (pc.Scanning? ==> pc.ages.Keys <= s.instances.Keys)
    && s.mu == (if s.tasks[t].Scanning? then Some(t) else None)
    && s' == Goto(s, t, pc).(mu := if pc.Scanning? then Some(t) else None)
  }

  lemma ScanFrames(s: State, s': State, t: Task, pc: Pc)
    requires ScanMove(s, s', t, pc) && s.residents.Keys <= s.owner.Keys
    ensures TasksFrame(s, s', t) && InstsFrame(s, s', t) && LoadsFrame(s, s', t)
  {
  }

  lemma ScanRegistry(s: State, s': State, t: Task, pc: Pc)
    requires ScanMove(s, s', t, pc) && RegistryOk(s)
    ensures RegistryOk(s')
  {
    forall k | k in s'.loading
      ensures Loads(s', k)
    {
      assert Loads(s, k);
    }
  }

  lemma ScanLoads(s: State, s': State, t: Task, pc: Pc)
    requires ScanMove(s, s', t, pc) && LoadsOk(s)
    ensures forall k | k in s'.loads :: UntouchedLoad(s, s', t, k)
  {
    forall k | k in s'.loads
      ensures UntouchedLoad(s, s', t, k)
    {
      assert LoadOk(s, k);
    }
  }

  lemma ScanRest(s: State, s': State, t: Task, pc: Pc)
    requires ScanMove(s, s', t, pc)
    ensures forall i | i in s'.residents :: UntouchedInst(s, s', t, i)
    ensures forall i | i in s'.owner :: UntouchedProc(s, s', t, i)
  {
  }

  lemma ScanPc(s: State, s': State, t: Task, pc: Pc)
    requires ScanMove(s, s', t, pc) && PcOk(s, t)
    ensures t in s'.tasks && PcOk(s', t)
  {
  }

  lemma ScanKeeps(s: State, s': State, t: Task, pc: Pc)
    requires Inv(s) && ScanMove(s, s', t, pc)
    ensures Inv(s')
  {
    assert t in s.tasks;
    InvRegistry(s);
    InvPc(s, t);
    hide *;
    ScanFrames(s, s', t, pc);
    ScanRegistry(s, s', t, pc);
    ScanLoads(s, s', t, pc);
    ScanRest(s, s', t, pc);
    ScanPc(s, s', t, pc);
    StepKeeps(s, s', t);
  }

  lemma ScanningFacts(s: State, t: Task)
    requires Inv(s) && t in s.tasks && s.tasks[t].Scanning?
    ensures s.mu == Some(t) && !s.closed && 0 < s.cap <= |s.instances| && s.tasks[t].ages.Keys <= s.instances.Keys
  {
    InvPc(s, t);
  }

  lemma EvictsAlike(s: State, s0: State, t: Task, i: Inst, d: Task)
    requires i in s.residents && t in s.tasks && d !in s.tasks && t in s0.tasks && s0 == Goto(s, t, s0.tasks[t]).(mu := None)
    ensures forall pc :: TakeMu(EvictVictim(s0, i, d), t, pc) == TakeMu(EvictVictim(s, i, d), t, pc)
  {
    hide MarkEvicted;
    var e, e0 := EvictVictim(s, i, d), EvictVictim(s0, i, d);
    assert e == e0.(tasks := e.tasks, mu := e.mu);
    forall pc: Pc
      ensures TakeMu(e0, t, pc) == TakeMu(e, t, pc)
    {
      assert e0.tasks[t := pc] == e.tasks[t := pc];
    }
  }

  lemma EvictOldestKeeps(s: State, s0: State, s': State, t: Task, victim: Model, d: Task)
    requires Inv(s) && LoaderEnabled(s, EvictOldest(t, victim, d)) && s' == ApplyLoader(s, EvictOldest(t, victim, d))
    requires s0 == Goto(s, t, Probing(s.tasks[t].m, s.tasks[t].l, s.tasks[t].i)).(mu := None)
    ensures Inv(s')
  {
    hide Inv, MarkEvicted, EvictVictim;
    ScanningFacts(s, t);
    ScanKeeps(s, s0, t, Probing(s.tasks[t].m, s.tasks[t].l, s.tasks[t].i));
    EvictsAlike(s, s0, t, s.instances[victim], d);
    SettleEvictingKeeps(s0, EvictVictim(s0, s.instances[victim], d), s', t, victim, d);
  }

  lemma SettleEvictingKeeps(s: State, s1: State, s': State, t: Task, victim: Model, d: Task)
    requires Inv(s) && t in s.tasks && s.tasks[t].Probing? && s.mu.None? && !s.closed && s.cap > 0
    requires d !in s.tasks && victim in s.instances && s.instances[victim] in s.residents
    requires s1 == EvictVictim(s, s.instances[victim], d)
    requires s' == TakeMu(s1, t, Settling(s.tasks[t].m, s.tasks[t].l, s.tasks[t].i)).(loading := s.loading - {s.tasks[t].m})
    ensures Inv(s')
  {
    hide Inv, EvictVictim;
    CapKept(s);
    EvictionKeeps(s, s1, s.instances[victim], d);
    EvictedFacts(s, s1, victim, d);
    RoomKeeps(s1, s', t);
  }

  lemma EvictionKeeps(s: State, s1: State, i: Inst, d: Task)
    requires Inv(s) && s.mu.None? && i in s.residents && d !in s.tasks && s1 == EvictVictim(s, i, d)
    ensures Inv(s1)
  {
    var g := Goto(s, d, Drain(i, ThenReturn));
    var h := Touch(g, i, MarkEvicted(s.residents[i], d));
    hide Inv, Registered, MarkEvicted, Forget;
    EvictVictimKeeps(s, g, h, s1, i, d);
  }

  // ----- Publication

  /** What the loader knows inside the registry section that publishes. */
  predicate Publishable(s: State, t: Task, m: Model, l: LoadId, i: Inst) {
    && t in s.tasks && s.tasks[t] == Settling(m, l, i) && s.mu == Some(t) && !s.closed
    && l in s.loads && s.loads[l].loader == t && s.loads[l].model == m && !s.loads[l].ready
    && i in s.owner && s.owner[i] == t && i !in s.residents
    && m !in s.instances && m !in s.loading && (s.cap > 0 ==> |s.instances| < s.cap)
  }

  lemma SettlingFacts(s: State, t: Task)
    requires t in s.tasks && s.tasks[t].Settling? && PcOk(s, t)
    ensures Publishable(s, t, s.tasks[t].m, s.tasks[t].l, s.tasks[t].i)
  {
  }

  predicate Publishes(s: State, s': State, t: Task, m: Model, l: LoadId, i: Inst, r: Resident) {
    && Publishable(s, t, m, l, i)
    && s' == Goto(Touch(CloseReady(s, l, Some(i)), i, r), t, Serving(i)).(instances := s.instances[m := i], mu := None)
    && ResidentOk(r) && r.model == m && r.grants == {t} && r.active == 1
    && r.waiters == {} && r.drainers == {} && !r.draining && !r.stopped && !r.timerActive && r.ledger.drainedBy.None?
  }

  lemma PublishInsts(s: State, s': State, t: Task, m: Model, l: LoadId, i: Inst, r: Resident)
    requires Publishes(s, s', t, m, l, i, r) && s.residents.Keys <= s.owner.Keys
    ensures InstsFrame(s, s', t)
  {
    hide ResidentOk;
  }

  lemma PublishFrames(s: State, s': State, t: Task, m: Model, l: LoadId, i: Inst, r: Resident)
    requires Publishes(s, s', t, m, l, i, r)
    ensures TasksFrame(s, s', t) && LoadsFrame(s, s', t)
  {
  }

  /** Registering never overwrites an entry and never exceeds the cap. */
  lemma PublishRegistry(s: State, s': State, t: Task, m: Model, l: LoadId, i: Inst, r: Resident)
    requires Publishes(s, s', t, m, l, i, r) && RegistryOk(s)
    ensures RegistryOk(s') && m !in s.instances
  {
    hide Publishes, Loads;
    PublishLoading(s, s', t, m, l, i, r);
    PublishEntries(s, s', t, m, l, i, r);
    PublishSizes(s, s', t, m, l, i, r);
  }

  lemma PublishSizes(s: State, s': State, t: Task, m: Model, l: LoadId, i: Inst, r: Resident)
    requires Publishes(s, s', t, m, l, i, r)
    requires s.alive <= s.owner.Keys && s.residents.Keys <= s.owner.Keys && s.drained <= s.residents.Keys
    ensures m !in s.instances && (s'.cap > 0 ==> |s'.instances| <= s'.cap) && s'.mu.None? && !s'.closed
    ensures s'.alive <= s'.owner.Keys && s'.residents.Keys <= s'.owner.Keys && s'.drained <= s'.residents.Keys
  {
    hide ResidentOk;
    MoreEntries(s.instances, m, i);
  }

  lemma PublishLoading(s: State, s': State, t: Task, m: Model, l: LoadId, i: Inst, r: Resident)
    requires Publishes(s, s', t, m, l, i, r) && forall k | k in s.loading :: Loads(s, k)
    ensures forall k | k in s'.loading :: Loads(s', k)
  {
    hide ResidentOk;
    forall k | k in s'.loading
      ensures Loads(s', k)
    {
      assert Loads(s, k);
    }
  }

  lemma PublishEntries(s: State, s': State, t: Task, m: Model, l: LoadId, i: Inst, r: Resident)
    requires Publishes(s, s', t, m, l, i, r)
    requires forall k | k in s.instances ::
               k !in s.loading && s.instances[k] in s.residents && s.residents[s.instances[k]].model == k
    ensures forall k | k in s'.instances ::
              k !in s'.loading && s'.instances[k] in s'.residents && s'.residents[s'.instances[k]].model == k
  {
    hide ResidentOk;
  }

  lemma MoreEntries(e: map<Model, Inst>, m: Model, i: Inst)
    requires m !in e
    ensures |e[m := i]| == |e| + 1
  {
    assert e[m := i].Keys == e.Keys + {m};
    assert |e[m := i].Keys| == |e.Keys| + 1;
  }

  lemma PublishInst(s: State, s': State, t: Task, m: Model, l: LoadId, i: Inst, r: Resident)
    requires Publishes(s, s', t, m, l, i, r) && s.drained <= s.residents.Keys
    ensures i in s'.residents && InstOk(s', i)
  {
    hide ResidentOk;
  }

  lemma PublishPc(s: State, s': State, t: Task, m: Model, l: LoadId, i: Inst, r: Resident)
    requires Publishes(s, s', t, m, l, i, r)
    ensures t in s'.tasks && PcOk(s', t)
  {
    hide ResidentOk;
  }

  lemma PublishOthers(s: State, s': State, t: Task, m: Model, l: LoadId, i: Inst, r: Resident)
    requires Publishes(s, s', t, m, l, i, r)
    ensures forall j | j in s'.residents && j != i :: UntouchedInst(s, s', t, j)
    ensures forall j | j in s'.owner :: UntouchedProc(s, s', t, j)
  {
  }

  lemma PublishLoads(s: State, s': State, t: Task, m: Model, l: LoadId, i: Inst, r: Resident)
    requires Publishes(s, s', t, m, l, i, r) && LoadsOk(s)
    ensures forall k | k in s'.loads :: UntouchedLoad(s, s', t, k) || LoadOk(s', k)
  {
    forall k | k in s'.loads && k != l
      ensures UntouchedLoad(s, s', t, k)
    {
      assert LoadOk(s, k);
    }
    assert LoadOk(s, l);
    assert LoadOk(s', l);
  }

  lemma PublishKeeps(s: State, s': State, t: Task, m: Model, l: LoadId, i: Inst, r: Resident)
    requires Inv(s) && Publishes(s, s', t, m, l, i, r)
    ensures Inv(s')
  {
    InvRegistry(s);
    assert s.drained <= s.residents.Keys;
    hide *;
    PublishInsts(s, s', t, m, l, i, r);
    PublishFrames(s, s', t, m, l, i, r);
    PublishRegistry(s, s', t, m, l, i, r);
    PublishInst(s, s', t, m, l, i, r);
    PublishPc(s, s', t, m, l, i, r);
    PublishOthers(s, s', t, m, l, i, r);
    PublishLoads(s, s', t, m, l, i, r);
    StepKeeps(s, s', t);
  }
}
