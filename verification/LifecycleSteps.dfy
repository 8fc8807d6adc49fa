/** The building blocks of the actions, each proved to keep the invariant. */
module LifecycleSteps {
  import opened Options
  import opened Residents
  import opened Lifecycle
  import opened LifecycleInvariant

  // ----- Moving one task

  lemma GotoTasks(s: State, s': State, t: Task, pc: Pc)
    requires s' == Goto(s, t, pc)
    ensures TasksFrame(s, s', t) && LoadsFrame(s, s', t)
  {
  }

  lemma GotoInsts(s: State, s': State, t: Task, pc: Pc)
    requires s.residents.Keys <= s.owner.Keys && s' == Goto(s, t, pc)
    ensures InstsFrame(s, s', t)
  {
  }

  lemma GotoRegistry(s: State, s': State, t: Task, pc: Pc)
    requires RegistryOk(s) && s' == Goto(s, t, pc) && s.mu != Some(t)
    ensures RegistryOk(s')
  {
    forall m | m in s'.loading
      ensures Loads(s', m)
    {
      assert Loads(s, m);
    }
  }

  lemma GotoKeeps(s: State, s': State, t: Task, pc: Pc)
    requires Inv(s) && s' == Goto(s, t, pc) && s.mu != Some(t)
    requires t in s'.tasks && PcOk(s', t)
    requires forall i | i in s'.residents :: UntouchedInst(s, s', t, i)
    requires forall l | l in s'.loads :: UntouchedLoad(s, s', t, l)
    requires forall i | i in s'.owner :: UntouchedProc(s, s', t, i)
    ensures Inv(s')
  {
    InvRegistry(s);
    hide *;
    GotoTasks(s, s', t, pc);
    GotoInsts(s, s', t, pc);
    GotoRegistry(s, s', t, pc);
    StepKeeps(s, s', t);
  }

  lemma InvRegistry(s: State)
    requires Inv(s)
    ensures RegistryOk(s) && s.residents.Keys <= s.owner.Keys
    ensures LoadsOk(s) && PcsOk(s)
  {
  }

  /** Nothing in the state relies on a task being here. */
  predicate Loose(pc: Pc) {
    pc.Retry? || pc.Acquire? || pc.TurnedAway? || pc.Slotless? || pc.Joined? || pc.Evict? || pc.Awaiting?
  }

  lemma LooseLoads(s: State, s': State, t: Task, pc: Pc)
    requires LoadsOk(s) && s' == Goto(s, t, pc)
    requires t in s.tasks ==> Loose(s.tasks[t])
    requires t in s.tasks && s.tasks[t].Joined? ==> pc == Returned || Ready(s, s.tasks[t].l)
    ensures forall l | l in s'.loads :: UntouchedLoad(s, s', t, l)
  {
    forall l | l in s'.loads
      ensures UntouchedLoad(s, s', t, l)
    {
      assert LoadOk(s, l);
    }
  }

  lemma LooseRest(s: State, s': State, t: Task, pc: Pc)
    requires RegistryOk(s) && s' == Goto(s, t, pc)
    requires t in s.tasks ==> Loose(s.tasks[t])
    ensures s.mu != Some(t)
    ensures forall i | i in s'.residents :: UntouchedInst(s, s', t, i)
    ensures forall i | i in s'.owner :: UntouchedProc(s, s', t, i)
  {
  }

  lemma MoveKeeps(s: State, s': State, t: Task, pc: Pc)
    requires Inv(s) && s' == Goto(s, t, pc)
    requires t in s.tasks ==> Loose(s.tasks[t])
    requires t in s.tasks && s.tasks[t].Joined? ==> pc == Returned || Ready(s, s.tasks[t].l)
    requires t in s'.tasks && PcOk(s', t)
    ensures Inv(s')
  {
    InvRegistry(s);
    hide *;
    LooseLoads(s, s', t, pc);
    LooseRest(s, s', t, pc);
    GotoKeeps(s, s', t, pc);
  }

  // ----- Running one section of one Instance, with or without moving a task

  /** The tasks that run such sections. */
  predicate Works(pc: Pc, i: Inst) {
    && (pc.Acquire? || pc.Asleep? || pc.Serving? || pc.IdleCallback? || pc.Drain? || pc.DrainAsleep?)
    && pc.i == i
  }

  lemma TouchInsts(s: State, s': State, i: Inst, r: Resident, t: Task, pc: Pc)
    requires s.residents.Keys <= s.owner.Keys && i in s.residents && s' == Goto(Touch(s, i, r), t, pc)
    requires Evolves(s.residents[i], r, t)
    ensures InstsFrame(s, s', t)
  {
    EvolvesKeepsModel(s.residents[i], r, t);
    SelfEvolves(s, t);
    hide Evolves;
  }

  lemma TouchTasks(s: State, s': State, i: Inst, r: Resident, t: Task, pc: Pc)
    requires i in s.residents && s' == Goto(Touch(s, i, r), t, pc)
    ensures TasksFrame(s, s', t) && LoadsFrame(s, s', t)
  {
  }

  lemma TouchRegistry(s: State, s': State, i: Inst, r: Resident, t: Task, pc: Pc)
    requires RegistryOk(s) && i in s.residents && s' == Goto(Touch(s, i, r), t, pc)
    requires r.model == s.residents[i].model && s.mu != Some(t)
    ensures RegistryOk(s')
  {
    forall m | m in s'.loading
      ensures Loads(s', m)
    {
      assert Loads(s, m);
    }
  }

  lemma TouchOthers(s: State, s': State, i: Inst, r: Resident, t: Task, pc: Pc)
    requires i in s.residents && s' == Goto(Touch(s, i, r), t, pc)
    requires t in s.tasks ==> Works(s.tasks[t], i)
    ensures forall j | j in s'.owner :: UntouchedProc(s, s', t, j)
    ensures forall j | j in s'.residents && j != i :: UntouchedInst(s, s', t, j)
  {
  }

  lemma TouchLoads(s: State, s': State, i: Inst, r: Resident, t: Task, pc: Pc)
    requires LoadsOk(s) && i in s.residents && s' == Goto(Touch(s, i, r), t, pc)
    requires t in s.tasks ==> Works(s.tasks[t], i)
    ensures forall l | l in s'.loads :: UntouchedLoad(s, s', t, l)
  {
    forall l | l in s'.loads
      ensures UntouchedLoad(s, s', t, l)
    {
      assert LoadOk(s, l);
    }
  }

  lemma SectionKeeps(s: State, s': State, i: Inst, r: Resident, t: Task, pc: Pc)
    requires Inv(s) && i in s.residents && s' == Goto(Touch(s, i, r), t, pc)
    requires Evolves(s.residents[i], r, t)
    requires t in s.tasks ==> Works(s.tasks[t], i)
    requires t in s'.tasks && PcOk(s', t) && i in s'.residents && InstOk(s', i)
    ensures Inv(s')
  {
    InvRegistry(s);
    NotInMu(s, t, i);
    EvolvesKeepsModel(s.residents[i], r, t);
    hide *;
    TouchInsts(s, s', i, r, t, pc);
    TouchTasks(s, s', i, r, t, pc);
    TouchRegistry(s, s', i, r, t, pc);
    TouchOthers(s, s', i, r, t, pc);
    TouchLoads(s, s', i, r, t, pc);
    StepKeeps(s, s', t);
  }

  lemma NotInMu(s: State, t: Task, i: Inst)
    requires RegistryOk(s) && (t in s.tasks ==> Works(s.tasks[t], i))
    ensures s.mu != Some(t)
  {
  }

  lemma SelfEvolves(s: State, t: Task)
    ensures forall i | i in s.residents :: Evolves(s.residents[i], s.residents[i], t)
  {
  }

  lemma EvolvesKeepsModel(r: Resident, r': Resident, t: Task)
    requires Evolves(r, r', t)
    ensures r'.model == r.model
  {
  }

  /** A section run by nobody in particular: the timer, a broadcast, a change of TTL. */
  lemma QuietKeeps(s: State, s': State, i: Inst, r: Resident)
    requires Inv(s) && i in s.residents && s' == Touch(s, i, r)
    requires forall t :: Evolves(s.residents[i], r, t)
    requires InstOk(s', i)
    ensures Inv(s')
  {
    InvRegistry(s);
    var t := Above(s.tasks.Keys);
    assert Evolves(s.residents[i], r, t);
    EvolvesKeepsModel(s.residents[i], r, t);
    QuietRest(s, s', i, r, t);
    hide *;
    StepKeeps(s, s', t);
  }

  lemma QuietRest(s: State, s': State, i: Inst, r: Resident, t: Task)
    requires Inv(s) && i in s.residents && s' == Touch(s, i, r)
    requires Evolves(s.residents[i], r, t) && r.model == s.residents[i].model && t !in s.tasks
    ensures TasksFrame(s, s', t) && InstsFrame(s, s', t) && LoadsFrame(s, s', t) && RegistryOk(s')
    ensures t !in s'.tasks
    ensures forall j | j in s'.owner :: UntouchedProc(s, s', t, j)
    ensures forall j | j in s'.residents && j != i :: UntouchedInst(s, s', t, j)
    ensures forall l | l in s'.loads :: UntouchedLoad(s, s', t, l)
  {
    InvRegistry(s);
    hide Inv;
    QuietInsts(s, s', i, r, t);
    QuietRegistry(s, s', i, r);
    QuietLoads(s, s', i, r, t);
    hide *;
  }

  lemma QuietInsts(s: State, s': State, i: Inst, r: Resident, t: Task)
    requires s.residents.Keys <= s.owner.Keys && i in s.residents && s' == Touch(s, i, r)
    requires Evolves(s.residents[i], r, t) && t !in s.tasks
    ensures InstsFrame(s, s', t)
  {
    EvolvesKeepsModel(s.residents[i], r, t);
    SelfEvolves(s, t);
    hide Evolves;
  }

  lemma QuietRegistry(s: State, s': State, i: Inst, r: Resident)
    requires RegistryOk(s) && i in s.residents && s' == Touch(s, i, r) && r.model == s.residents[i].model
    ensures RegistryOk(s')
  {
    forall m | m in s'.loading
      ensures Loads(s', m)
    {
      assert Loads(s, m);
    }
  }

  lemma QuietLoads(s: State, s': State, i: Inst, r: Resident, t: Task)
    requires LoadsOk(s) && i in s.residents && s' == Touch(s, i, r) && t !in s.tasks
    ensures TasksFrame(s, s', t) && LoadsFrame(s, s', t) && t !in s'.tasks
    ensures forall j | j in s'.owner :: UntouchedProc(s, s', t, j)
    ensures forall j | j in s'.residents && j != i :: UntouchedInst(s, s', t, j)
    ensures forall l | l in s'.loads :: UntouchedLoad(s, s', t, l)
  {
    forall l | l in s'.loads
      ensures UntouchedLoad(s, s', t, l)
    {
      assert LoadOk(s, l);
    }
  }

  // ----- Changes outside the tasks and the Instances

  lemma SameTasks(s: State, s': State, t: Task)
    requires LoadsOk(s) && t !in s.tasks && s'.tasks == s.tasks
    ensures t !in s'.tasks
    ensures forall l | l in s.loads && l in s'.loads && s'.loads[l] == s.loads[l] :: UntouchedLoad(s, s', t, l)
  {
    forall l | l in s.loads && l in s'.loads && s'.loads[l] == s.loads[l]
      ensures UntouchedLoad(s, s', t, l)
    {
      assert LoadOk(s, l);
    }
  }

  /** A blocked Instance may be dropped from the registry. */
  lemma ForgetKeeps(s: State, s': State, i: Inst)
    requires Inv(s) && i in s.residents && s' == Forget(s, i)
    requires Blocked(s, i) && s.mu.None?
    ensures Inv(s')
  {
    var t := Above(s.tasks.Keys);
    InvRegistry(s);
    hide Inv, LoadsOk, PcsOk, RegistryOk;
    ForgetFrames(s, s', i, t);
    ForgetRest(s, s', i, t);
    SameTasks(s, s', t);
    hide *;
    StepKeeps(s, s', t);
  }

  lemma ForgetFrames(s: State, s': State, i: Inst, t: Task)
    requires i in s.residents && s' == Forget(s, i) && s.residents.Keys <= s.owner.Keys && s.mu.None?
    ensures TasksFrame(s, s', t) && InstsFrame(s, s', t) && LoadsFrame(s, s', t)
    ensures s'.tasks == s.tasks && s'.loads == s.loads
  {
    SelfEvolves(s, t);
    hide Evolves;
  }

  lemma ForgetRest(s: State, s': State, i: Inst, t: Task)
    requires i in s.residents && s' == Forget(s, i) && RegistryOk(s) && t !in s.tasks && Blocked(s, i) && s.mu.None?
    ensures RegistryOk(s')
    ensures forall j | j in s'.residents :: UntouchedInst(s, s', t, j)
    ensures forall j | j in s'.owner :: UntouchedProc(s, s', t, j)
  {
    forall m | m in s'.loading
      ensures Loads(s', m)
    {
      assert Loads(s, m);
    }
    if Registered(s, i) {
      FewerEntries(s.instances, s.residents[i].model);
    }
  }

  lemma FewerEntries(m: map<Model, Inst>, k: Model)
    requires k in m
    ensures |m - {k}| == |m| - 1
  {
    assert (m - {k}).Keys == m.Keys - {k};
    assert |(m - {k}).Keys| == |m - {k}|;
  }

  /** The environment ends contexts and processes, and `Stop` may be called at any time. */
  predicate Progresses(s: State, s': State) {
    && s' == s.(finished := s'.finished, alive := s'.alive, stopIssued := s'.stopIssued)
    && s.finished <= s'.finished && s'.alive <= s.alive && s.stopIssued <= s'.stopIssued
  }

  lemma ProgressKeeps(s: State, s': State)
    requires Inv(s) && Progresses(s, s')
    ensures Inv(s')
  {
    var t := Above(s.tasks.Keys);
    InvRegistry(s);
    hide Inv, LoadsOk, PcsOk, RegistryOk;
    ProgressFrames(s, s', t);
    ProgressRest(s, s', t);
    SameTasks(s, s', t);
    hide *;
    StepKeeps(s, s', t);
  }

  lemma ProgressFrames(s: State, s': State, t: Task)
    requires Progresses(s, s') && s.residents.Keys <= s.owner.Keys
    ensures TasksFrame(s, s', t) && InstsFrame(s, s', t) && LoadsFrame(s, s', t)
    ensures s'.tasks == s.tasks && s'.loads == s.loads
  {
  }

  lemma ProgressRest(s: State, s': State, t: Task)
    requires Progresses(s, s') && RegistryOk(s) && t !in s.tasks
    ensures RegistryOk(s')
    ensures forall j | j in s'.residents :: UntouchedInst(s, s', t, j)
    ensures forall j | j in s'.owner :: UntouchedProc(s, s', t, j)
  {
    forall m | m in s'.loading
      ensures Loads(s', m)
    {
      assert Loads(s, m);
    }
  }

  /** A load that is still in flight, or already settled, changes its counters only. */
  lemma LoadTouchKeeps(s: State, s': State, l: LoadId, L: Load)
    requires Inv(s) && l in s.loads && s' == s.(loads := s.loads[l := L])
    requires L == s.loads[l].(callers := L.callers, left := L.left, abandoned := L.abandoned, evicted := L.evicted)
    requires l in s'.loads && LoadOk(s', l)
    ensures Inv(s')
  {
    var t := Above(s.tasks.Keys);
    InvRegistry(s);
    hide Inv, LoadsOk, PcsOk, RegistryOk, LoadOk;
    LoadTouchFrames(s, s', l, L, t);
    LoadTouchRest(s, s', l, L, t);
    SameTasks(s, s', t);
    hide *;
    StepKeeps(s, s', t);
  }

  lemma LoadTouchFrames(s: State, s': State, l: LoadId, L: Load, t: Task)
    requires l in s.loads && s' == s.(loads := s.loads[l := L]) && s.residents.Keys <= s.owner.Keys
    requires L == s.loads[l].(callers := L.callers, left := L.left, abandoned := L.abandoned, evicted := L.evicted)
    ensures TasksFrame(s, s', t) && InstsFrame(s, s', t) && LoadsFrame(s, s', t)
    ensures s'.tasks == s.tasks && s'.loads.Keys == s.loads.Keys
    ensures forall k | k in s'.loads && k != l :: s'.loads[k] == s.loads[k]
  {
  }

  lemma LoadTouchRest(s: State, s': State, l: LoadId, L: Load, t: Task)
    requires l in s.loads && s' == s.(loads := s.loads[l := L]) && RegistryOk(s) && t !in s.tasks
    requires L.model == s.loads[l].model && L.ready == s.loads[l].ready
    ensures RegistryOk(s')
    ensures forall j | j in s'.residents :: UntouchedInst(s, s', t, j)
    ensures forall j | j in s'.owner :: UntouchedProc(s, s', t, j)
  {
    forall m | m in s'.loading
      ensures Loads(s', m)
    {
      assert Loads(s, m);
    }
  }

  /** A number above every member of a finite set. */
  ghost function Above(used: set<nat>): (t: nat)
    ensures forall u | u in used :: u < t
  {
    if used == {} then 0
    else
      var u :| u in used;
      var t := Above(used - {u});
      assert used == used - {u} + {u};
      if u < t then t else u + 1
  }
}
