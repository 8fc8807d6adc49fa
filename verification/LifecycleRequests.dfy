/** The actions of requests and evictions that the blocks compose keep the invariant. */
module LifecycleRequests {
  import opened Options
  import opened Residents
  import opened Lifecycle
  import opened LifecycleInvariant
  import opened LifecycleSteps
  import opened LifecycleActions

  lemma InvPc(s: State, t: Task)
    requires Inv(s) && t in s.tasks
    ensures PcOk(s, t)
  {
  }

  lemma InvLoad(s: State, l: LoadId)
    requires Inv(s) && l in s.loads
    ensures LoadOk(s, l)
  {
  }

  /** An entry of the registry is an Instance of that Model. */
  lemma EntryOk(s: State, m: Model)
    requires Inv(s) && m in s.instances
    ensures s.instances[m] in s.residents && s.residents[s.instances[m]].model == m && m !in s.loading
    ensures Registered(s, s.instances[m])
  {
    InvRegistry(s);
  }

  // ----- What a program counter asks for, one by one

  lemma PlainPc(s: State, t: Task)
    requires t in s.tasks && (s.tasks[t].Retry? || s.tasks[t].Evict? || s.tasks[t].Returned?)
    ensures PcOk(s, t)
  {
  }

  lemma AcquirePc(s: State, t: Task, m: Model)
    requires t in s.tasks && s.tasks[t].Acquire? && s.tasks[t].m == m
    requires s.tasks[t].i in s.residents && s.residents[s.tasks[t].i].model == m
    ensures PcOk(s, t)
  {
  }

  lemma DrainPc(s: State, t: Task)
    requires t in s.tasks && s.tasks[t].Drain? && s.tasks[t].i in s.residents
    requires ThenOk(s, s.tasks[t].i, s.tasks[t].next)
    ensures PcOk(s, t)
  {
  }

  lemma AwaitingPc(s: State, t: Task)
    requires t in s.tasks && s.tasks[t].Awaiting? && s.tasks[t].sampled.None?
    requires var load := s.tasks[t].load; load.Some? ==> load.value in s.loads && s.loads[load.value].model == s.tasks[t].m
    ensures PcOk(s, t)
  {
  }

  lemma EvictedPc(s: State, t: Task)
    requires t in s.tasks && s.tasks[t].Evicted?
    requires var sampled := s.tasks[t].sampled;
             sampled.Some? ==> sampled.value in s.residents && s.residents[sampled.value].stopped
    requires var load := s.tasks[t].load;
             load.Some? ==> Ready(s, load.value)
                            && (s.loads[load.value].inst.Some? ==> Blocked(s, s.loads[load.value].inst.value))
    ensures PcOk(s, t)
  {
  }

  // ----- Arrivals

  lemma ArrivalKeeps(s: State, s': State, t: Task, pc: Pc)
    requires Inv(s) && t !in s.tasks && s' == Goto(s, t, pc)
    requires pc.Retry? || pc.Evict? || (pc.Drain? && pc.i in s.residents && pc.next == ThenReturn)
    ensures Inv(s')
  {
    hide Inv, PcOk;
    if pc.Drain? {
      DrainPc(s', t);
    } else {
      PlainPc(s', t);
    }
    MoveKeeps(s, s', t, pc);
  }

  // ----- The top of the loop of getOrLaunchInstance

  lemma EnterKeeps(s: State, s': State, t: Task, pc: Pc)
    requires Inv(s) && t in s.tasks && s.tasks[t].Retry? && s' == Goto(s, t, pc)
    requires pc == Returned || (pc.Acquire? && pc.m in s.instances && pc.i == s.instances[pc.m])
    ensures Inv(s')
  {
    hide Inv, PcOk, Registered;
    if pc.Acquire? {
      EntryOk(s, pc.m);
      AcquirePc(s', t, pc.m);
    } else {
      PlainPc(s', t);
    }
    MoveKeeps(s, s', t, pc);
  }

  /** A caller joins a load at most once. */
  lemma NotYetJoined(s: State, t: Task, m: Model)
    requires Inv(s) && t in s.tasks && s.tasks[t].Retry? && m in s.loading
    ensures s.loading[m] in s.loads && s.loads[s.loading[m]].model == m
    ensures t !in s.loads[s.loading[m]].joined
  {
    InvRegistry(s);
    assert Loads(s, m);
    InvLoad(s, s.loading[m]);
  }

  predicate Joins(s: State, s': State, t: Task, m: Model, l: LoadId) {
    && t in s.tasks && s.tasks[t] == Retry(m) && m in s.loading && s.loading[m] == l
    && l in s.loads && s.loads[l].model == m && t !in s.loads[l].joined
    && s' == Goto(s.(loads := s.loads[l := s.loads[l].(callers := s.loads[l].callers + 1, joined := s.loads[l].joined + {t})]),
                  t, Joined(m, l))
  }

  lemma JoinFrames(s: State, s': State, t: Task, m: Model, l: LoadId)
    requires Joins(s, s', t, m, l) && s.residents.Keys <= s.owner.Keys
    ensures TasksFrame(s, s', t) && InstsFrame(s, s', t) && LoadsFrame(s, s', t)
  {
  }

  lemma JoinRegistry(s: State, s': State, t: Task, m: Model, l: LoadId)
    requires Joins(s, s', t, m, l) && RegistryOk(s)
    ensures RegistryOk(s')
  {
    forall k | k in s'.loading
      ensures Loads(s', k)
    {
      assert Loads(s, k);
    }
  }

  lemma JoinLoads(s: State, s': State, t: Task, m: Model, l: LoadId)
    requires Joins(s, s', t, m, l) && LoadsOk(s)
    ensures forall k | k in s'.loads :: UntouchedLoad(s, s', t, k) || LoadOk(s', k)
  {
    forall k | k in s'.loads && k != l
      ensures UntouchedLoad(s, s', t, k)
    {
      assert LoadOk(s, k);
    }
    assert LoadOk(s, l);
    assert |s.loads[l].joined + {t}| == |s.loads[l].joined| + 1;
    assert LoadOk(s', l);
  }

  lemma JoinRest(s: State, s': State, t: Task, m: Model, l: LoadId)
    requires Joins(s, s', t, m, l)
    ensures t in s'.tasks && PcOk(s', t)
    ensures forall i | i in s'.residents :: UntouchedInst(s, s', t, i)
    ensures forall i | i in s'.owner :: UntouchedProc(s, s', t, i)
  {
  }

  lemma JoinKeeps(s: State, s': State, t: Task, m: Model, l: LoadId)
    requires Inv(s) && t in s.tasks && s.tasks[t] == Retry(m) && m in s.loading && s.loading[m] == l && l in s.loads
    requires s' == Goto(s.(loads := s.loads[l := s.loads[l].(callers := s.loads[l].callers + 1, joined := s.loads[l].joined + {t})]),
                        t, Joined(m, l))
    ensures Inv(s')
  {
    hide Inv, RegistryOk, LoadsOk, PcsOk;
    NotYetJoined(s, t, m);
    InvRegistry(s);
    assert Joins(s, s', t, m, l);
    hide *;
    JoinFrames(s, s', t, m, l);
    JoinRegistry(s, s', t, m, l);
    JoinLoads(s, s', t, m, l);
    JoinRest(s, s', t, m, l);
    StepKeeps(s, s', t);
  }

  lemma FollowKeeps(s: State, s': State, t: Task, pc: Pc)
    requires Inv(s) && t in s.tasks && s.tasks[t].Joined? && s' == Goto(s, t, pc)
    requires pc == Returned
          || (Ready(s, s.tasks[t].l) && pc.Acquire? && pc.m in s.instances && pc.i == s.instances[pc.m])
          || (Ready(s, s.tasks[t].l) && pc.Slotless? && s.loads[s.tasks[t].l].inst == Some(pc.i) && s.tasks[t].m !in s.instances)
    ensures Inv(s')
  {
    hide Inv, PcOk, Registered;
    if pc.Acquire? {
      EntryOk(s, pc.m);
      AcquirePc(s', t, pc.m);
    } else if pc.Slotless? {
      LoadedIsBlocked(s, t);
      SlotlessPc(s', t);
    } else {
      PlainPc(s', t);
    }
    MoveKeeps(s, s', t, pc);
  }

  /** What a load left behind, once its entry is gone. */
  lemma LoadedIsBlocked(s: State, t: Task)
    requires Inv(s) && t in s.tasks && s.tasks[t].Joined? && s.tasks[t].l in s.loads
    requires s.loads[s.tasks[t].l].inst.Some? && s.tasks[t].m !in s.instances
    ensures Blocked(s, s.loads[s.tasks[t].l].inst.value)
  {
    InvPc(s, t);
    InvLoad(s, s.tasks[t].l);
    InvInst(s, s.loads[s.tasks[t].l].inst.value);
  }

  lemma SlotlessPc(s: State, t: Task)
    requires t in s.tasks && s.tasks[t].Slotless? && Blocked(s, s.tasks[t].i)
    ensures PcOk(s, t)
  {
  }

  lemma LeaveKeeps(s: State, s': State, t: Task)
    requires Inv(s) && t in s.tasks && s.tasks[t].Slotless? && s' == Goto(s, t, Returned)
    ensures Inv(s')
  {
    hide Inv, PcOk;
    PlainPc(s', t);
    MoveKeeps(s, s', t, Returned);
  }

  lemma TurnedAwayOk(s: State, t: Task)
    requires Inv(s) && t in s.tasks && s.tasks[t].TurnedAway? && t !in s.finished
    ensures Blocked(s, s.tasks[t].i)
  {
    InvPc(s, t);
  }

  lemma TurnAwayKeeps(s: State, s': State, t: Task)
    requires Inv(s) && RequestEnabled(s, TurnAway(t)) && s' == ApplyRequest(s, TurnAway(t))
    ensures Inv(s')
  {
    var pc := if t in s.finished then Returned else Retry(s.tasks[t].m);
    hide Inv, PcOk, Blocked, Registered;
    if t !in s.finished && !s.tasks[t].follower {
      TurnedAwayOk(s, t);
      ForgetMoveKeeps(s, Forget(s, s.tasks[t].i), s', t, pc);
    } else {
      PlainPc(s', t);
      MoveKeeps(s, s', t, pc);
    }
  }

  lemma ForgetMoveKeeps(s: State, s1: State, s': State, t: Task, pc: Pc)
    requires Inv(s) && t in s.tasks && s.tasks[t].TurnedAway? && s.tasks[t].i in s.residents && Blocked(s, s.tasks[t].i)
    requires s.mu.None? && s1 == Forget(s, s.tasks[t].i) && s' == Goto(s1, t, pc) && pc.Retry?
    ensures Inv(s')
  {
    hide Inv, PcOk, Blocked, Registered;
    ForgetKeeps(s, s1, s.tasks[t].i);
    PlainPc(s', t);
    MoveKeeps(s1, s', t, pc);
  }

  // ----- The monitor of a caller

  lemma DepartOk(s: State, s': State, t: Task, l: LoadId)
    requires l in s.loads && LoadOk(s, l) && t in s.loads[l].joined && t !in s.loads[l].left && t in s.finished
    requires s' == DoDepart(s, t, l)
    ensures l in s'.loads && LoadOk(s', l)
  {
  }

  lemma DepartKeeps(s: State, s': State, t: Task, l: LoadId)
    requires Inv(s) && RequestEnabled(s, CallerDeparts(t, l)) && s' == DoDepart(s, t, l)
    ensures Inv(s')
  {
    InvLoad(s, l);
    DepartOk(s, s', t, l);
    hide Inv, LoadOk;
    LoadTouchKeeps(s, s', l, s'.loads[l]);
  }

  // ----- evictByID

  lemma MarkedLoadOk(s: State, s': State, l: LoadId)
    requires l in s.loads && LoadOk(s, l)
    requires s' == s.(loads := s.loads[l := s.loads[l].(evicted := true)])
    ensures l in s'.loads && LoadOk(s', l)
  {
  }

  lemma MarkEvictedKeeps(s: State, s': State, l: LoadId)
    requires Inv(s) && l in s.loads && s' == s.(loads := s.loads[l := s.loads[l].(evicted := true)])
    ensures Inv(s')
  {
    InvLoad(s, l);
    MarkedLoadOk(s, s', l);
    hide Inv, LoadOk;
    LoadTouchKeeps(s, s', l, s'.loads[l]);
  }

  lemma LoadingOk(s: State, m: Model)
    requires Inv(s) && m in s.loading
    ensures s.loading[m] in s.loads && s.loads[s.loading[m]].model == m && !s.loads[s.loading[m]].ready
  {
    InvRegistry(s);
    assert Loads(s, m);
  }

  lemma SamplePcKeeps(s: State, s': State, t: Task, m: Model, load: Option<LoadId>)
    requires Inv(s) && t in s.tasks && s.tasks[t] == Evict(m)
    requires load.Some? ==> load.value in s.loads && s.loads[load.value].model == m
    requires s' == Goto(s, t, if m in s.instances then Drain(s.instances[m], ThenAwait(m, s.instances[m], load))
                              else Awaiting(m, None, load))
    ensures Inv(s')
  {
    hide Inv, PcOk, Registered;
    if m in s.instances {
      EntryOk(s, m);
      DrainPc(s', t);
    } else {
      AwaitingPc(s', t);
    }
    MoveKeeps(s, s', t, s'.tasks[t]);
  }

  lemma SampleKeeps(s: State, s': State, t: Task)
    requires Inv(s) && EvictsEnabled(s, EvictSample(t)) && s' == DoEvictSample(s, t)
    ensures Inv(s')
  {
    var m := s.tasks[t].m;
    if m in s.loading {
      var l := s.loading[m];
      var s1 := s.(loads := s.loads[l := s.loads[l].(evicted := true)]);
      LoadingOk(s, m);
      hide Inv;
      MarkEvictedKeeps(s, s1, l);
      SamplePcKeeps(s1, s', t, m, Some(l));
    } else {
      hide Inv;
      SamplePcKeeps(s, s', t, m, None);
    }
  }

  lemma AwaitedOk(s: State, t: Task)
    requires Inv(s) && t in s.tasks && s.tasks[t].Awaiting? && s.tasks[t].load.Some? && Ready(s, s.tasks[t].load.value)
    ensures var pc := s.tasks[t];
            var inst := s.loads[pc.load.value].inst;
            && (pc.sampled.Some? ==> pc.sampled.value in s.residents && s.residents[pc.sampled.value].stopped)
            && (inst.Some? ==> inst.value in s.residents && s.residents[inst.value].model == pc.m
                               && (Blocked(s, inst.value) || (pc.m in s.instances && s.instances[pc.m] == inst.value)))
  {
    var pc := s.tasks[t];
    InvPc(s, t);
    InvLoad(s, pc.load.value);
    var inst := s.loads[pc.load.value].inst;
    if inst.Some? {
      InvInst(s, inst.value);
    }
  }

  /** The second sample of `evictByID`: whatever the load left behind is drained or blocked. */
  lemma AwaitReadyKeeps(s: State, s': State, t: Task)
    requires Inv(s) && EvictsEnabled(s, AwaitReady(t)) && s' == DoAwaitReady(s, t)
    ensures Inv(s')
  {
    hide Inv, PcOk, Registered, UntouchedInst;
    AwaitedOk(s, t);
    var m := s.tasks[t].m;
    if m in s.instances {
      EntryOk(s, m);
      DrainPc(s', t);
    } else {
      EvictedPc(s', t);
    }
    MoveKeeps(s, s', t, s'.tasks[t]);
  }

  lemma AwaitEndsKeeps(s: State, s': State, t: Task, pc: Pc)
    requires Inv(s) && t in s.tasks && s.tasks[t].Awaiting? && s' == Goto(s, t, pc)
    requires pc == Returned || (s.tasks[t].load.None? && pc == Evicted(s.tasks[t].m, s.tasks[t].sampled, None))
    ensures Inv(s')
  {
    InvPc(s, t);
    hide Inv;
    assert PcOk(s', t);
    hide PcOk;
    MoveKeeps(s, s', t, pc);
  }
}
