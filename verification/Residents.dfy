/** One resident Instance: the fields of `residentInstance` and the critical
    sections that its own mutex protects.

    Every section is given twice: as a function from one value of the record to
    the next, which the step system in `Lifecycle` uses, and as a method of a
    class that updates the fields in place and is proved to compute it. */
module Residents {
  import opened Options

  /** A goroutine. */
  type Task = nat

  /** Bookkeeping that the program does not have: which task is to stop the
      process, which task carries an idle callback, and who won the drain. */
  datatype Ledger = Ledger(guardian: Option<Task>, idler: Option<Task>, callback: Option<Task>, drainedBy: Option<Task>)

  /** `waiters` and `drainers` are the tasks asleep on the condition variable that no
      broadcast has reached, inside `acquire` and inside `drainAndStop` respectively;
      `grants` are the tasks to which `acquire` answered true and that have not released.
      `armed` is the runtime timer, `timerActive` the flag that the program keeps. */
  datatype Resident = Resident(
    model: string,
    ttl: int,
    active: int,
    maxSlots: int,
    draining: bool,
    stopped: bool,
    hasTimer: bool,
    armed: bool,
    timerActive: bool,
    lastUsed: int,
    grants: set<Task>,
    waiters: set<Task>,
    drainers: set<Task>,
    ledger: Ledger)

  datatype Verdict = Refused | Full | Granted

  datatype DrainVerdict = AlreadyStopped | MustWait | MustStop

  // ----- The critical sections as functions

  function AtLeastOne(slots: int): int {
    if slots <= 0 then 1 else slots
  }

  function NewResident(model: string, ttl: int, slots: int, now: int): Resident {
    Resident(model, ttl, 0, AtLeastOne(slots), false, false, false, false, false, now,
             {}, {}, {}, Ledger(None, None, None, None))
  }

  /** The decision of one pass through `acquire`, from taking the mutex to returning or
      going to sleep. The pass after a wake-up decides by the same tests. */
  function Admission(r: Resident, ctxDone: bool, exited: bool): Verdict {
    if ctxDone || r.draining || r.stopped || exited then Refused
    else if r.active >= AtLeastOne(r.maxSlots) then Full
    else Granted
  }

  function Disarm(r: Resident): Resident {
    r.(armed := false, timerActive := false)
  }

  function Broadcast(r: Resident): Resident {
    r.(waiters := {}, drainers := {})
  }

  function Arm(r: Resident): Resident {
    r.(hasTimer := true, armed := true, timerActive := true)
  }

  function Sleep(r: Resident, t: Task): Resident {
    r.(maxSlots := AtLeastOne(r.maxSlots), waiters := r.waiters + {t})
  }

  function Grant(r: Resident, t: Task, now: int): Resident {
    var g := r.(maxSlots := AtLeastOne(r.maxSlots), active := r.active + 1, lastUsed := now, grants := r.grants + {t});
    if g.hasTimer && g.timerActive then Disarm(g) else g
  }

  /** The slot is back and everybody is woken; the timer comes after that. */
  function Released(r: Resident, t: Task, now: int): Resident {
    Broadcast(r.(active := if r.active > 0 then r.active - 1 else r.active, lastUsed := now, grants := r.grants - {t}))
  }

  function Release(r: Resident, t: Task, now: int): Resident {
    var g := Released(r, t, now);
    if g.active == 0 && !g.draining && g.ttl > 0 && !g.stopped then Arm(g) else g
  }

  function MarkStopped(r: Resident): Resident {
    var g := Broadcast(r.(stopped := true));
    if g.hasTimer then Disarm(g) else g
  }

  /** The decision of one pass through `drainAndStop` under the mutex. */
  function DrainDecision(r: Resident): DrainVerdict {
    if r.stopped then AlreadyStopped
    else if r.active > 0 then MustWait
    else MustStop
  }

  /** The effect of that pass; `entering` is false for the pass after a wake-up. */
  function DrainPass(r: Resident, t: Task, entering: bool): Resident {
    if r.stopped then r
    else
      var g := if entering && r.hasTimer && r.timerActive then Disarm(r) else r;
      if r.active > 0 then
        g.(draining := r.draining || entering, drainers := g.drainers + {t}, ledger := g.ledger.(guardian := Some(t)))
      else
        g.(stopped := true, ledger := g.ledger.(guardian := Some(t), drainedBy := Some(t)))
  }

  predicate IdleCallbackActs(r: Resident) {
    !r.stopped && r.timerActive
  }

  function IdleCallbackPass(r: Resident, t: Task): Resident {
    if IdleCallbackActs(r) then r.(timerActive := false, ledger := r.ledger.(idler := Some(t))) else r
  }

  function SetTtl(r: Resident, d: int): Resident {
    var g := r.(ttl := d);
    if g.active == 0 && !g.draining && !g.stopped then
      var h := if g.hasTimer then Disarm(g) else g;
      if d > 0 then Arm(h) else h
    else g
  }

  /** What `evictLRULocked` does to its victim, with `drainer` the goroutine it starts. */
  function MarkEvicted(r: Resident, drainer: Task): Resident {
    var g := r.(draining := true);
    var h := if g.hasTimer && g.timerActive then Disarm(g) else g;
    if r.stopped then h else h.(ledger := h.ledger.(guardian := Some(drainer)))
  }

  /** The runtime fires the timer and starts its callback as task `t`. */
  function TimerFires(r: Resident, t: Task): Resident {
    r.(armed := false, ledger := r.ledger.(callback := Some(t)))
  }

  // ----- What every section keeps

  /** The part of the invariant that speaks of one Instance alone. The last two
      conjuncts are why a broadcast is never owed to a sleeper. */
  predicate ResidentOk(r: Resident) {
    && 1 <= r.maxSlots
    && r.active == |r.grants| <= r.maxSlots
    && (r.armed ==> r.hasTimer)
    && (r.timerActive ==> r.hasTimer && r.active == 0 && !r.draining && !r.stopped && r.ttl > 0)
    && (r.waiters != {} ==> r.active >= r.maxSlots && !r.stopped)
    && (r.drainers != {} ==> r.active > 0 && r.draining && !r.stopped)
  }

  /** How a section run by task `t` may change an Instance, whatever the section. */
  predicate Evolves(r: Resident, r': Resident, t: Task) {
    && r'.model == r.model
    && (r.draining ==> r'.draining)
    && (r.stopped ==> r'.stopped)
    && (r.draining || r.stopped ==> r'.grants <= r.grants)
    && r'.grants <= r.grants + {t} && r.grants <= r'.grants + {t}
    && r'.waiters <= r.waiters + {t}
    && r'.drainers <= r.drainers + {t}
    && (r.ledger.drainedBy.Some? ==> r'.ledger.drainedBy == r.ledger.drainedBy)
  }

  lemma GrantOk(r: Resident, t: Task, now: int, ctxDone: bool, exited: bool)
    requires ResidentOk(r) && t !in r.grants
    requires Admission(r, ctxDone, exited) == Granted
    ensures ResidentOk(Grant(r, t, now)) && Evolves(r, Grant(r, t, now), t)
    ensures t in Grant(r, t, now).grants
    ensures !Grant(r, t, now).draining && !Grant(r, t, now).stopped
  {
  }

  lemma SleepOk(r: Resident, t: Task)
    requires ResidentOk(r) && Admission(r, false, false) == Full
    ensures ResidentOk(Sleep(r, t)) && Evolves(r, Sleep(r, t), t)
  {
  }

  lemma ReleaseOk(r: Resident, t: Task, now: int)
    requires ResidentOk(r) && t in r.grants
    ensures ResidentOk(Release(r, t, now)) && Evolves(r, Release(r, t, now), t)
    ensures Release(r, t, now).active == r.active - 1
    ensures Release(r, t, now).waiters == {} && Release(r, t, now).drainers == {}
  {
    assert |r.grants - {t}| == |r.grants| - 1;
  }

  lemma DrainPassOk(r: Resident, t: Task, entering: bool)
    requires ResidentOk(r)
    requires !entering ==> r.draining
    requires !r.stopped ==> r.ledger.drainedBy.None?
    ensures ResidentOk(DrainPass(r, t, entering)) && Evolves(r, DrainPass(r, t, entering), t)
    ensures DrainDecision(r) == MustStop ==> DrainPass(r, t, entering).grants == {}
    ensures DrainPass(r, t, entering).draining || DrainPass(r, t, entering).stopped
  {
  }

  /** It makes no difference that the slot count was mended before. */
  lemma GrantIgnores(r: Resident, t: Task, now: int)
    ensures Grant(r.(maxSlots := AtLeastOne(r.maxSlots)), t, now) == Grant(r, t, now)
  {
  }

  lemma ReleaseIs(r: Resident, t: Task, now: int)
    ensures var g := Released(r, t, now);
            Release(r, t, now) == if g.active == 0 && !g.draining && g.ttl > 0 && !g.stopped then Arm(g) else g
  {
  }

  /** Whatever one pass through `acquire` decides, the Instance stays as it should be. */
  lemma AdmissionOk(r: Resident, t: Task, now: int, ctxDone: bool, exited: bool)
    requires ResidentOk(r) && t !in r.grants
    ensures ResidentOk(r) && Evolves(r, r, t)
    ensures Admission(r, ctxDone, exited) == Full ==> ResidentOk(Sleep(r, t)) && Evolves(r, Sleep(r, t), t)
    ensures Admission(r, ctxDone, exited) == Granted ==> ResidentOk(Grant(r, t, now)) && Evolves(r, Grant(r, t, now), t)
  {
    if Admission(r, ctxDone, exited) == Granted {
      GrantOk(r, t, now, ctxDone, exited);
    } else if Admission(r, ctxDone, exited) == Full {
      SleepOk(r, t);
    }
  }

  /** The sections that grant and release nothing. */
  lemma QuietSectionsOk(r: Resident, t: Task, d: int)
    requires ResidentOk(r)
    ensures ResidentOk(MarkStopped(r)) && Evolves(r, MarkStopped(r), t)
    ensures ResidentOk(IdleCallbackPass(r, t)) && Evolves(r, IdleCallbackPass(r, t), t)
    ensures ResidentOk(SetTtl(r, d)) && Evolves(r, SetTtl(r, d), t)
    ensures ResidentOk(MarkEvicted(r, t)) && Evolves(r, MarkEvicted(r, t), t)
    ensures ResidentOk(TimerFires(r, t)) && Evolves(r, TimerFires(r, t), t)
  {
  }

  // ----- What every section sets

  /** The model and the slots are for good. */
  predicate SameSlots(r: Resident, r': Resident) {
    r'.model == r.model && r'.maxSlots == r.maxSlots
  }

  /** Using an Instance is taking a slot or giving one back, and both set the time of last use. */
  lemma UsesSet(r: Resident, t: Task, now: int)
    requires 1 <= r.maxSlots
    ensures SameSlots(r, Grant(r, t, now)) && Grant(r, t, now).lastUsed == now && Grant(r, t, now).ttl == r.ttl
    ensures SameSlots(r, Release(r, t, now)) && Release(r, t, now).lastUsed == now && Release(r, t, now).ttl == r.ttl
  {
  }

  /** The time of last use, the time to live, the model and the slots are as they were. */
  predicate SameTimes(r: Resident, r': Resident) {
    SameSlots(r, r') && r'.lastUsed == r.lastUsed && r'.ttl == r.ttl
  }

  /** No other section sets that time, and only one sets the time to live. */
  lemma OthersSet(r: Resident, t: Task, entering: bool)
    requires 1 <= r.maxSlots
    ensures SameTimes(r, Sleep(r, t)) && SameTimes(r, MarkStopped(r)) && SameTimes(r, IdleCallbackPass(r, t))
    ensures SameTimes(r, TimerFires(r, t)) && SameTimes(r, Broadcast(r)) && SameTimes(r, MarkEvicted(r, t))
  {
  }

  lemma DrainSets(r: Resident, t: Task, entering: bool)
    ensures SameTimes(r, DrainPass(r, t, entering))
  {
  }

  /** A new time to live: it is set; the timer of an idle Instance runs from now on exactly if the
      time is positive, and that of any other is left alone; nothing else changes. */
  lemma TtlSet(r: Resident, d: int)
    requires ResidentOk(r)
    ensures var g := SetTtl(r, d);
            && g.ttl == d
            && (if r.grants == {} && !r.draining && !r.stopped then g.timerActive == g.armed == (d > 0)
                else g.timerActive == r.timerActive && g.armed == r.armed)
            && g == r.(ttl := d, hasTimer := g.hasTimer, armed := g.armed, timerActive := g.timerActive)
  {
  }

  // ----- The critical sections as methods

  class ResidentInstance {
    const modelID: string
    var ttl: int
    var activeCount: int
    var maxSlots: int
    var draining: bool
    var stopped: bool
    var hasTimer: bool
    var armed: bool
    var timerActive: bool
    var lastUsed: int
    ghost var grants: set<Task>
    ghost var waiters: set<Task>
    ghost var drainers: set<Task>
    ghost var ledger: Ledger

    ghost function View(): Resident
      reads this
    {
      Resident(modelID, ttl, activeCount, maxSlots, draining, stopped, hasTimer, armed, timerActive, lastUsed,
               grants, waiters, drainers, ledger)
    }

    /** An Instance starts with a free slot, so the `acquire` that its loader performs
        under the registry lock is refused or granted and never sleeps. */
    constructor (modelID: string, ttl: int, slots: int, now: int)
      ensures View() == NewResident(modelID, ttl, slots, now)
      ensures ResidentOk(View())
      ensures this.modelID == modelID && this.ttl == ttl && lastUsed == now && maxSlots == (if slots > 0 then slots else 1)
      ensures activeCount == 0 && !draining && !stopped && !armed && !timerActive
      ensures forall ctxDone, exited :: Admission(View(), ctxDone, exited) != Full
    {
      this.modelID, this.ttl, this.lastUsed := modelID, ttl, now;
      activeCount, maxSlots := 0, slots;
      if slots <= 0 {
        maxSlots := 1;
      }
      draining, stopped, hasTimer, armed, timerActive := false, false, false, false, false;
      grants, waiters, drainers, ledger := {}, {}, {}, Ledger(None, None, None, None);
    }

    method AcquirePass(ctxDone: bool, exited: bool, now: int, ghost me: Task) returns (v: Verdict)
      modifies this
      ensures v == Admission(old(View()), ctxDone, exited)
      ensures v == Refused ==> View() == old(View())
      ensures v == Full ==> View() == Sleep(old(View()), me)
      ensures v == Granted ==> View() == Grant(old(View()), me, now)
      ensures v == Refused <==> ctxDone || old(draining) || old(stopped) || exited
      ensures v == Full ==> old(activeCount) >= maxSlots && waiters == old(waiters) + {me}
      ensures v == Granted ==> old(activeCount) < maxSlots && activeCount == old(activeCount) + 1 && grants == old(grants) + {me}
      ensures v == Granted ==> lastUsed == now && !(hasTimer && timerActive) && (old(hasTimer && timerActive) ==> !armed)
      ensures maxSlots == (if old(maxSlots) > 0 || v == Refused then old(maxSlots) else 1)
      ensures draining == old(draining) && stopped == old(stopped) && ttl == old(ttl)
      ensures ResidentOk(old(View())) && me !in old(grants) ==> ResidentOk(View()) && Evolves(old(View()), View(), me)
    {
      ghost var r := View();
      if ResidentOk(r) && me !in r.grants {
        AdmissionOk(r, me, now, ctxDone, exited);
      }
      GrantIgnores(r, me, now);
      hide ResidentOk, Evolves, Grant;
      if ctxDone || draining || stopped || exited {
        return Refused;
      }
      if maxSlots <= 0 {
        maxSlots := 1;
      }
      if activeCount >= maxSlots {
        waiters := waiters + {me};
        return Full;
      }
      TakeSlot(now, me);
      return Granted;
    }

    method ReleaseSlot(now: int, ghost me: Task)
      modifies this
      ensures View() == Release(old(View()), me, now)
      ensures lastUsed == now && activeCount == (if old(activeCount) > 0 then old(activeCount) - 1 else old(activeCount))
      ensures grants == old(grants) - {me} && waiters == {} && drainers == {}
      ensures if activeCount == 0 && !draining && !stopped && ttl > 0 then timerActive && armed
              else timerActive == old(timerActive) && armed == old(armed)
      ensures draining == old(draining) && stopped == old(stopped) && ttl == old(ttl) && maxSlots == old(maxSlots)
      ensures ResidentOk(old(View())) && me in old(grants) ==> ResidentOk(View()) && Evolves(old(View()), View(), me)
    {
      ghost var r := View();
      if ResidentOk(r) && me in r.grants {
        ReleaseOk(r, me, now);
      }
      hide ResidentOk, Evolves, Release, Released, Arm;
      GiveBack(now, me);
      ReleaseIs(r, me, now);
      if activeCount == 0 {
        if draining {
          return;
        }
        if ttl > 0 && !stopped {
          StartTimer();
        }
      }
    }

    /** The first half of `release`, up to the broadcast. */
    method GiveBack(now: int, ghost me: Task)
      modifies this
      ensures View() == Released(old(View()), me, now)
    {
      lastUsed := now;
      if activeCount > 0 {
        activeCount := activeCount - 1;
      }
      grants, waiters, drainers := grants - {me}, {}, {};
    }

    /** The last lines of `acquire`. */
    method TakeSlot(now: int, ghost me: Task)
      requires maxSlots >= 1
      modifies this
      ensures View() == Grant(old(View()), me, now)
    {
      activeCount, lastUsed := activeCount + 1, now;
      grants := grants + {me};
      if hasTimer && timerActive {
        StopTimer();
      }
    }

    /** `Stop` on the timer, and the flag. */
    method StopTimer()
      modifies this
      ensures View() == Disarm(old(View()))
    {
      armed, timerActive := false, false;
    }

    /** `time.AfterFunc`, and the flag. */
    method StartTimer()
      modifies this
      ensures View() == Arm(old(View()))
    {
      hasTimer, armed, timerActive := true, true, true;
    }

    method StopTimerAndMarkStopped()
      modifies this
      ensures View() == MarkStopped(old(View()))
      ensures stopped && waiters == {} && drainers == {} && (hasTimer ==> !timerActive && !armed)
      ensures draining == old(draining) && grants == old(grants) && activeCount == old(activeCount) && lastUsed == old(lastUsed)
      ensures ResidentOk(old(View())) ==> ResidentOk(View())
    {
      if ResidentOk(View()) {
        QuietSectionsOk(View(), 0, 0);
      }
      hide ResidentOk, Evolves;
      if hasTimer {
        StopTimer();
      }
      stopped, waiters, drainers := true, {}, {};
    }

    method DrainUnderLock(entering: bool, ghost me: Task) returns (v: DrainVerdict)
      requires !entering ==> draining
      modifies this
      ensures v == DrainDecision(old(View())) && View() == DrainPass(old(View()), me, entering)
      ensures v == AlreadyStopped <==> old(stopped)
      ensures v == MustWait <==> !old(stopped) && old(activeCount) > 0
      ensures v == AlreadyStopped ==> View() == old(View())
      ensures v == MustWait ==> draining && !stopped && drainers == old(drainers) + {me}
      ensures v == MustStop ==> stopped && activeCount <= 0 && draining == old(draining) && drainers == old(drainers)
      ensures entering && old(hasTimer && timerActive) && v != AlreadyStopped ==> !timerActive && !armed
      ensures waiters == old(waiters) && grants == old(grants) && activeCount == old(activeCount) && lastUsed == old(lastUsed)
      ensures ResidentOk(old(View())) && (!old(stopped) ==> old(ledger).drainedBy.None?) ==>
                ResidentOk(View()) && Evolves(old(View()), View(), me)
    {
      if ResidentOk(View()) && (!stopped ==> ledger.drainedBy.None?) {
        DrainPassOk(View(), me, entering);
      }
      hide ResidentOk, Evolves;
      if stopped {
        return AlreadyStopped;
      }
      if entering && hasTimer && timerActive {
        StopTimer();
      }
      if activeCount > 0 {
        draining := true;
        drainers, ledger := drainers + {me}, ledger.(guardian := Some(me));
        return MustWait;
      }
      stopped, ledger := true, ledger.(guardian := Some(me), drainedBy := Some(me));
      return MustStop;
    }

    method OnIdleTimeout(ghost me: Task) returns (drains: bool)
      modifies this
      ensures drains == IdleCallbackActs(old(View())) && View() == IdleCallbackPass(old(View()), me)
      ensures drains <==> !old(stopped) && old(timerActive)
      ensures drains ==> !timerActive
      ensures ResidentOk(old(View())) ==> ResidentOk(View()) && Evolves(old(View()), View(), me)
    {
      if ResidentOk(View()) {
        QuietSectionsOk(View(), me, 0);
      }
      hide ResidentOk, Evolves;
      if stopped || !timerActive {
        return false;
      }
      timerActive, ledger := false, ledger.(idler := Some(me));
      return true;
    }

    method ChangeTtl(d: int)
      modifies this
      ensures View() == SetTtl(old(View()), d)
      ensures ttl == d
      ensures ResidentOk(old(View())) ==>
                if activeCount == 0 && !draining && !stopped then timerActive == armed == (d > 0)
                else timerActive == old(timerActive) && armed == old(armed)
      ensures View() == old(View()).(ttl := d, hasTimer := hasTimer, armed := armed, timerActive := timerActive)
      ensures ResidentOk(old(View())) ==> ResidentOk(View())
    {
      if ResidentOk(View()) {
        QuietSectionsOk(View(), 0, d);
        TtlSet(View(), d);
      }
      hide ResidentOk, Evolves;
      ttl := d;
      if activeCount == 0 && !draining && !stopped {
        if hasTimer {
          StopTimer();
        }
        if d > 0 {
          StartTimer();
        }
      }
    }

    method MarkForEviction(ghost drainer: Task)
      modifies this
      ensures View() == MarkEvicted(old(View()), drainer)
      ensures draining && stopped == old(stopped) && (old(hasTimer && timerActive) ==> !timerActive && !armed)
      ensures grants == old(grants) && activeCount == old(activeCount) && lastUsed == old(lastUsed) && ttl == old(ttl)
      ensures ResidentOk(old(View())) ==> ResidentOk(View()) && Evolves(old(View()), View(), drainer)
    {
      if ResidentOk(View()) {
        QuietSectionsOk(View(), drainer, 0);
      }
      hide ResidentOk, Evolves;
      draining := true;
      if hasTimer && timerActive {
        StopTimer();
      }
      if !stopped {
        ledger := ledger.(guardian := Some(drainer));
      }
    }
  }

  /** The victim that `evictLRULocked` chooses from the ages it sampled. */
  predicate Oldest(sampled: map<string, int>, victim: string) {
    victim in sampled && forall id :: id in sampled ==> sampled[victim] <= sampled[id]
  }

  /** The scan of `evictLRULocked`, over the `lastUsed` values it sampled, in whatever
      order the map is iterated. */
  method LeastRecentlyUsed(sampled: map<string, int>) returns (victim: Option<string>)
    ensures victim.None? <==> sampled == map[]
    ensures victim.Some? ==> Oldest(sampled, victim.value)
  {
    victim := None;
    var oldest := 0;
    var rest := sampled.Keys;
    while rest != {}
      invariant rest <= sampled.Keys
      invariant victim.None? ==> rest == sampled.Keys
      invariant victim.Some? ==> victim.value in sampled && oldest == sampled[victim.value]
      invariant victim.Some? ==> forall id :: id in sampled && id !in rest ==> oldest <= sampled[id]
      decreases rest
    {
      var id :| id in rest;
      if victim.None? || sampled[id] < oldest {
        oldest, victim := sampled[id], Some(id);
      }
      rest := rest - {id};
    }
  }
}
