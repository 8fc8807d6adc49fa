/** Sweeps of the registry, shutdown and the end of a drain keep the invariant. */
module LifecycleSweeps {
  import opened Options
  import opened Residents
  import opened Lifecycle
  import opened LifecycleInvariant
  import opened LifecycleSteps
  import opened LifecycleActions
  import opened LifecycleRequests

  // ----- Taking the registry lock

  predicate StartsSweep(s: State, s': State, t: Task, why: Purpose) {
    && s.mu.None?
    && (if why.ForTuning? then t in s.tasks && s.tasks[t] == Launching(why.m, why.l) else t !in s.tasks)
    && (why.ForClose? ==> why.inFlight == {})
    && s' == TakeMu(s, t, Sweeping({}, why)).(closed := s.closed || why.ForClose?)
  }

  lemma StartFrames(s: State, s': State, t: Task, why: Purpose)
    requires StartsSweep(s, s', t, why) && s.residents.Keys <= s.owner.Keys
    ensures TasksFrame(s, s', t) && InstsFrame(s, s', t) && LoadsFrame(s, s', t)
  {
  }

  lemma StartRegistry(s: State, s': State, t: Task, why: Purpose)
    requires StartsSweep(s, s', t, why) && RegistryOk(s)
    ensures RegistryOk(s')
  {
    forall k | k in s'.loading
      ensures Loads(s', k)
    {
      assert Loads(s, k);
    }
  }

  lemma StartOthers(s: State, s': State, t: Task, why: Purpose)
    requires StartsSweep(s, s', t, why) && LoadsOk(s)
    ensures forall i | i in s'.residents :: UntouchedInst(s, s', t, i)
    ensures forall i | i in s'.owner :: UntouchedProc(s, s', t, i)
    ensures forall l | l in s'.loads :: UntouchedLoad(s, s', t, l)
  {
    forall l | l in s'.loads
      ensures UntouchedLoad(s, s', t, l)
    {
      assert LoadOk(s, l);
    }
  }

  lemma StartPc(s: State, s': State, t: Task, why: Purpose)
    requires StartsSweep(s, s', t, why) && (t in s.tasks ==> PcOk(s, t))
    ensures t in s'.tasks && PcOk(s', t)
  {
  }

  lemma StartKeeps(s: State, s': State, t: Task, why: Purpose)
    requires Inv(s) && StartsSweep(s, s', t, why)
    ensures Inv(s')
  {
    InvRegistry(s);
    if t in s.tasks {
      InvPc(s, t);
    }
    hide *;
    StartPc(s, s', t, why);
    StartFrames(s, s', t, why);
    StartRegistry(s, s', t, why);
    StartOthers(s, s', t, why);
    StepKeeps(s, s', t);
  }

  // ----- Marking one Instance

  ghost predicate SweepsOne(s: State, s': State, t: Task, m: Model, i: Inst, r: Resident, pc: Pc) {
    && t in s.tasks && s.tasks[t].Sweeping? && s.mu == Some(t) && m in s.instances && s.instances[m] == i
    && i in s.residents && s.residents[i].model == m
    && pc == Sweeping(s.tasks[t].toStop + {i}, s.tasks[t].why)
    && ResidentOk(r) && (forall u :: Evolves(s.residents[i], r, u)) && r.stopped && !r.timerActive
    && r.grants == s.residents[i].grants && r.waiters == {} && r.drainers == {} && r.ledger.guardian == Some(t)
    && s' == Goto(Touch(s, i, r), t, pc).(instances := s.instances - {m})
  }

  lemma SweepOneFrames(s: State, s': State, t: Task, m: Model, i: Inst, r: Resident, pc: Pc)
    requires SweepsOne(s, s', t, m, i, r, pc) && s.residents.Keys <= s.owner.Keys
    ensures TasksFrame(s, s', t) && LoadsFrame(s, s', t)
  {
  }

  lemma SweepOneInsts(s: State, s': State, t: Task, m: Model, i: Inst, r: Resident, pc: Pc)
    requires SweepsOne(s, s', t, m, i, r, pc) && s.residents.Keys <= s.owner.Keys
    ensures InstsFrame(s, s', t)
  {
    EvolvesKeepsModel(s.residents[i], r, t);
    SelfEvolves(s, t);
    hide Evolves, ResidentOk;
  }

  lemma DropRegistry(s: State, s': State, m: Model)
    requires RegistryOk(s) && m in s.instances && s' == s.(instances := s.instances - {m})
    ensures RegistryOk(s')
  {
    FewerEntries(s.instances, m);
    forall k | k in s'.loading
      ensures Loads(s', k)
    {
      assert Loads(s, k);
    }
  }

  lemma MarkRegistry(s: State, s': State, t: Task, i: Inst, r: Resident, pc: Pc)
    requires RegistryOk(s) && t in s.tasks && s.tasks[t].Sweeping? && s.mu == Some(t) && i in s.residents
    requires r.model == s.residents[i].model && pc.Sweeping? && pc.why == s.tasks[t].why
    requires s' == Goto(Touch(s, i, r), t, pc)
    ensures RegistryOk(s')
  {
    forall k | k in s'.loading
      ensures Loads(s', k)
    {
      assert Loads(s, k);
    }
  }

  lemma SweepOneRegistry(s: State, s': State, t: Task, m: Model, i: Inst, r: Resident, pc: Pc)
    requires SweepsOne(s, s', t, m, i, r, pc) && RegistryOk(s)
    ensures RegistryOk(s')
  {
    hide Evolves, ResidentOk, RegistryOk;
    EvolvesKeepsModel(s.residents[i], r, t);
    var s1 := s.(instances := s.instances - {m});
    DropRegistry(s, s1, m);
    MarkRegistry(s1, s', t, i, r, pc);
  }

  lemma SweepOneInst(s: State, s': State, t: Task, m: Model, i: Inst, r: Resident, pc: Pc)
    requires SweepsOne(s, s', t, m, i, r, pc) && InstOk(s, i)
    ensures i in s'.residents && InstOk(s', i)
  {
    hide Evolves;
  }

  lemma SweepOneOthers(s: State, s': State, t: Task, m: Model, i: Inst, r: Resident, pc: Pc)
    requires SweepsOne(s, s', t, m, i, r, pc)
    ensures forall j | j in s'.residents && j != i :: UntouchedInst(s, s', t, j)
    ensures forall j | j in s'.owner :: UntouchedProc(s, s', t, j)
  {
    hide Evolves, ResidentOk;
  }

  lemma SweepOneLoads(s: State, s': State, t: Task, m: Model, i: Inst, r: Resident, pc: Pc)
    requires SweepsOne(s, s', t, m, i, r, pc) && LoadsOk(s)
    ensures forall l | l in s'.loads :: UntouchedLoad(s, s', t, l)
  {
    hide Evolves, ResidentOk;
    forall l | l in s'.loads
      ensures UntouchedLoad(s, s', t, l)
    {
      assert LoadOk(s, l);
    }
  }

  lemma SweepOnePc(s: State, s': State, t: Task, m: Model, i: Inst, r: Resident, pc: Pc)
    requires SweepsOne(s, s', t, m, i, r, pc) && PcOk(s, t)
    ensures t in s'.tasks && PcOk(s', t)
  {
    hide Evolves, ResidentOk;
  }

  lemma SweepOneKeeps(s: State, s': State, t: Task, m: Model, i: Inst, r: Resident, pc: Pc)
    requires Inv(s) && SweepsOne(s, s', t, m, i, r, pc)
    ensures Inv(s')
  {
    assert t in s.tasks && i in s.residents;
    InvRegistry(s);
    InvPc(s, t);
    InvInst(s, i);
    hide *;
    SweepOneFrames(s, s', t, m, i, r, pc);
    SweepOneInsts(s, s', t, m, i, r, pc);
    SweepOneRegistry(s, s', t, m, i, r, pc);
    SweepOneInst(s, s', t, m, i, r, pc);
    SweepOneOthers(s, s', t, m, i, r, pc);
    SweepOneLoads(s, s', t, m, i, r, pc);
    SweepOnePc(s, s', t, m, i, r, pc);
    StepKeeps(s, s', t);
  }

  // ----- Giving the lock back

  predicate EndsSweep(s: State, s': State, t: Task, pc: Pc) {
    && t in s.tasks && s.tasks[t].Sweeping? && s.mu == Some(t) && s.instances == map[]
    && pc == Reaping(s.tasks[t].toStop, if s.tasks[t].why.ForClose? then ForClose(s.loading.Values) else s.tasks[t].why)
    && s' == Goto(s, t, pc).(mu := None)
  }

  lemma EndFrames(s: State, s': State, t: Task, pc: Pc)
    requires EndsSweep(s, s', t, pc) && s.residents.Keys <= s.owner.Keys
    ensures TasksFrame(s, s', t) && InstsFrame(s, s', t) && LoadsFrame(s, s', t)
  {
  }

  lemma EndRegistry(s: State, s': State, t: Task, pc: Pc)
    requires EndsSweep(s, s', t, pc) && RegistryOk(s)
    ensures RegistryOk(s')
  {
    forall k | k in s'.loading
      ensures Loads(s', k)
    {
      assert Loads(s, k);
    }
  }

  lemma EndOthers(s: State, s': State, t: Task, pc: Pc)
    requires EndsSweep(s, s', t, pc) && LoadsOk(s)
    ensures forall i | i in s'.residents :: UntouchedInst(s, s', t, i)
    ensures forall i | i in s'.owner :: UntouchedProc(s, s', t, i)
    ensures forall l | l in s'.loads :: UntouchedLoad(s, s', t, l)
  {
    forall l | l in s'.loads
      ensures UntouchedLoad(s, s', t, l)
    {
      assert LoadOk(s, l);
    }
  }

  /** The loads in flight when `Close` releases the lock have published nothing. */
  lemma InFlightEmpty(s: State)
    requires RegistryOk(s) && LoadsOk(s)
    ensures forall l | l in s.loading.Values :: l in s.loads && s.loads[l].inst.None?
  {
    forall l | l in s.loading.Values
      ensures l in s.loads && s.loads[l].inst.None?
    {
      var m :| m in s.loading && s.loading[m] == l;
      assert Loads(s, m);
      assert LoadOk(s, l);
    }
  }

  lemma EndPc(s: State, s': State, t: Task, pc: Pc)
    requires EndsSweep(s, s', t, pc) && PcOk(s, t)
    requires forall l | l in s.loading.Values :: l in s.loads && s.loads[l].inst.None?
    ensures t in s'.tasks && PcOk(s', t)
  {
  }

  lemma EndKeeps(s: State, s': State, t: Task, pc: Pc)
    requires Inv(s) && EndsSweep(s, s', t, pc)
    ensures Inv(s')
  {
    assert t in s.tasks;
    InvRegistry(s);
    InvPc(s, t);
    hide *;
    InFlightEmpty(s);
    EndPc(s, s', t, pc);
    EndFrames(s, s', t, pc);
    EndRegistry(s, s', t, pc);
    EndOthers(s, s', t, pc);
    StepKeeps(s, s', t);
  }

  // ----- Stopping what was swept

  predicate Reaps(s: State, s': State, t: Task, pc: Pc) {
    && t in s.tasks && s.tasks[t].Reaping? && s' == Goto(s, t, pc)
    && (if pc.Reaping?
        then (pc.why == s.tasks[t].why
              || (pc.why.ForClose? && s.tasks[t].why.ForClose? && pc.why.inFlight <= s.tasks[t].why.inFlight))
             && pc.toStop <= s.tasks[t].toStop && s.tasks[t].toStop <= pc.toStop + s.stopIssued
        else s.tasks[t].toStop == {} && pc == AfterReap(s.tasks[t].why))
  }

  lemma ReapOthers(s: State, s': State, t: Task, pc: Pc)
    requires Reaps(s, s', t, pc) && LoadsOk(s) && RegistryOk(s)
    ensures s.mu != Some(t)
    ensures forall i | i in s'.residents :: UntouchedInst(s, s', t, i)
    ensures forall i | i in s'.owner :: UntouchedProc(s, s', t, i)
    ensures forall l | l in s'.loads :: UntouchedLoad(s, s', t, l)
  {
    ReapLoads(s, s', t, pc);
    hide LoadsOk, UntouchedLoad;
  }

  lemma ReapLoads(s: State, s': State, t: Task, pc: Pc)
    requires Reaps(s, s', t, pc) && LoadsOk(s)
    ensures forall l | l in s'.loads :: UntouchedLoad(s, s', t, l)
  {
    forall l | l in s'.loads
      ensures UntouchedLoad(s, s', t, l)
    {
      assert LoadOk(s, l);
    }
  }

  lemma ReapPc(s: State, s': State, t: Task, pc: Pc)
    requires Reaps(s, s', t, pc) && PcOk(s, t)
    ensures t in s'.tasks && PcOk(s', t)
  {
  }

  lemma ReapKeeps(s: State, s': State, t: Task, pc: Pc)
    requires Inv(s) && Reaps(s, s', t, pc)
    ensures Inv(s')
  {
    assert t in s.tasks && s' == Goto(s, t, pc);
    InvRegistry(s);
    InvPc(s, t);
    hide *;
    ReapOthers(s, s', t, pc);
    ReapPc(s, s', t, pc);
    GotoKeeps(s, s', t, pc);
  }

  // ----- The end of a drain

  lemma UnregisterOthers(s: State, s': State, t: Task, pc: Pc)
    requires LoadsOk(s) && RegistryOk(s) && t in s.tasks && s.tasks[t].Unregistering? && s' == Goto(s, t, pc)
    requires pc == Stopping(s.tasks[t].i, s.tasks[t].next)
    ensures s.mu != Some(t)
    ensures forall i | i in s'.residents :: UntouchedInst(s, s', t, i)
    ensures forall i | i in s'.owner :: UntouchedProc(s, s', t, i)
    ensures forall l | l in s'.loads :: UntouchedLoad(s, s', t, l)
  {
    UnregisterLoads(s, s', t, pc);
    hide LoadsOk, UntouchedLoad;
  }

  lemma UnregisterLoads(s: State, s': State, t: Task, pc: Pc)
    requires LoadsOk(s) && t in s.tasks && s.tasks[t].Unregistering? && s' == Goto(s, t, pc)
    ensures forall l | l in s'.loads :: UntouchedLoad(s, s', t, l)
  {
    forall l | l in s'.loads
      ensures UntouchedLoad(s, s', t, l)
    {
      assert LoadOk(s, l);
    }
  }

  lemma UnregisterPc(s: State, s': State, t: Task, pc: Pc)
    requires t in s.tasks && s.tasks[t].Unregistering? && PcOk(s, t) && s' == Goto(s, t, pc)
    requires pc == Stopping(s.tasks[t].i, s.tasks[t].next) && !Registered(s, s.tasks[t].i)
    ensures t in s'.tasks && PcOk(s', t)
  {
  }

  lemma UnregisteringStopped(s: State, t: Task)
    requires Inv(s) && t in s.tasks && s.tasks[t].Unregistering?
    ensures Blocked(s, s.tasks[t].i)
  {
    InvPc(s, t);
  }

  lemma UnregisterKeeps(s: State, s1: State, s': State, t: Task, pc: Pc)
    requires Inv(s) && t in s.tasks && s.tasks[t].Unregistering? && s.tasks[t].i in s.residents && s.mu.None?
    requires s1 == Forget(s, s.tasks[t].i) && s' == Goto(s1, t, pc) && pc == Stopping(s.tasks[t].i, s.tasks[t].next)
    ensures Inv(s')
  {
    hide Inv, PcOk, RegistryOk, LoadsOk, PcsOk, UntouchedInst, UntouchedLoad, UntouchedProc, Blocked;
    UnregisteringStopped(s, t);
    ForgetKeeps(s, s1, s.tasks[t].i);
    InvRegistry(s1);
    InvPc(s1, t);
    UnregisterOthers(s1, s', t, pc);
    UnregisterPc(s1, s', t, pc);
    GotoKeeps(s1, s', t, pc);
  }

  predicate EndsDrain(s: State, s': State, t: Task, i: Inst, pc: Pc) {
    && t in s.tasks && s.tasks[t].Stopping? && s.tasks[t].i == i && i in s.stopIssued
    && pc == AfterDrain(s.tasks[t].next)
    && s' == Goto(s, t, pc).(drained := s.drained + {i})
  }

  lemma EndDrainFrames(s: State, s': State, t: Task, i: Inst, pc: Pc)
    requires EndsDrain(s, s', t, i, pc) && s.residents.Keys <= s.owner.Keys && WinnerOk(s, t, i)
    ensures TasksFrame(s, s', t) && InstsFrame(s, s', t) && LoadsFrame(s, s', t)
  {
  }

  lemma EndDrainRegistry(s: State, s': State, t: Task, i: Inst, pc: Pc)
    requires EndsDrain(s, s', t, i, pc) && RegistryOk(s) && i in s.residents
    ensures RegistryOk(s')
  {
    forall k | k in s'.loading
      ensures Loads(s', k)
    {
      assert Loads(s, k);
    }
  }

  lemma EndDrainInst(s: State, s': State, t: Task, i: Inst, pc: Pc)
    requires EndsDrain(s, s', t, i, pc) && WinnerOk(s, t, i) && InstOk(s, i)
    ensures i in s'.residents && InstOk(s', i)
  {
  }

  lemma EndDrainOthers(s: State, s': State, t: Task, i: Inst, pc: Pc)
    requires EndsDrain(s, s', t, i, pc) && LoadsOk(s)
    ensures forall j | j in s'.residents && j != i :: UntouchedInst(s, s', t, j)
    ensures forall j | j in s'.owner :: UntouchedProc(s, s', t, j)
    ensures forall l | l in s'.loads :: UntouchedLoad(s, s', t, l)
  {
    forall l | l in s'.loads
      ensures UntouchedLoad(s, s', t, l)
    {
      assert LoadOk(s, l);
    }
  }

  lemma StoppingFacts(s: State, t: Task)
    requires t in s.tasks && s.tasks[t].Stopping? && PcOk(s, t)
    ensures WinnerOk(s, t, s.tasks[t].i) && ThenOk(s, s.tasks[t].i, s.tasks[t].next)
    ensures s.tasks[t].i in s.residents && s.residents[s.tasks[t].i].stopped
  {
  }

  lemma EndDrainKeeps(s: State, s': State, t: Task, i: Inst, pc: Pc)
    requires Inv(s) && EndsDrain(s, s', t, i, pc)
    ensures Inv(s')
  {
    hide Inv, PcOk, InstOk, RegistryOk, LoadsOk, PcsOk, UntouchedInst, UntouchedLoad, UntouchedProc, WinnerOk, ThenOk,
         TasksFrame, InstsFrame, LoadsFrame;
    InvRegistry(s);
    InvPc(s, t);
    StoppingFacts(s, t);
    InvInst(s, i);
    EndDrainFrames(s, s', t, i, pc);
    EndDrainRegistry(s, s', t, i, pc);
    EndDrainInst(s, s', t, i, pc);
    EndDrainOthers(s, s', t, i, pc);
    AfterDrainOk(s, s', t, i, s.tasks[t].next);
    StepKeeps(s, s', t);
  }
}
