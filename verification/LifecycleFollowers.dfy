/** A run in which a follower is handed an Instance without a slot. */
module LifecycleFollowers {
  import opened Options
  import opened Residents
  import opened Lifecycle

  /** Some run ends in this state. */
  ghost predicate Reached(s: State) {
    exists states: seq<State>, actions: seq<Action> :: IsRun(states, actions) && states[|states| - 1] == s
  }

  lemma Onto(s: State, a: Action, s': State)
    requires Reached(s) && Enabled(s, a) && s' == Apply(s, a)
    ensures Reached(s')
  {
    hide Enabled, Apply, Init;
    var states: seq<State>, actions: seq<Action> :| IsRun(states, actions) && states[|states| - 1] == s;
    assert IsRun(states + [s'], actions + [a]);
    assert (states + [s'])[|states|] == s';
  }

  lemma FromStart()
    ensures Reached(Start())
  {
    assert IsRun([Start()], []);
  }

  const M: Model := "m"

  // ----- The states of the run; task 0 loads, task 1 follows, task 2 resets

  function Start(): State {
    State(0, false, None, map[], map[], map[], map[], map[], {}, map[], {}, {}, {})
  }

  function Pending(callers: int, joined: set<Task>): Load {
    Load(M, 0, callers, joined, {}, false, false, false, None)
  }

  function Began(): State {
    Start().(loading := map[M := 0], loads := map[0 := Pending(1, {0})], tasks := map[0 := Launching(M, 0)])
  }

  function Followed(): State {
    Began().(loads := map[0 := Pending(2, {0, 1})], tasks := map[0 := Launching(M, 0), 1 := Joined(M, 0)])
  }

  function Launched(): State {
    Followed().(tasks := map[0 := Probing(M, 0, 0), 1 := Joined(M, 0)], owner := map[0 := 0], alive := {0})
  }

  function Settled(): State {
    Launched().(tasks := map[0 := Settling(M, 0, 0), 1 := Joined(M, 0)], loading := map[], mu := Some(0))
  }

  function Published(r: Resident): State {
    Settled().(loads := map[0 := Pending(2, {0, 1}).(ready := true, inst := Some(0))], mu := None,
               instances := map[M := 0], residents := map[0 := r], tasks := map[0 := Serving(0), 1 := Joined(M, 0)])
  }

  function Swept(r: Resident, pc: Pc, mu: Option<Task>): State {
    Published(r).(instances := map[], mu := mu, tasks := map[0 := Serving(0), 1 := Joined(M, 0), 2 := pc])
  }

  function Slot(): Resident {
    Grant(NewResident(M, 0, 1, 0), 0, 0)
  }

  function Marked(): Resident {
    var r := MarkStopped(Slot());
    r.(ledger := r.ledger.(guardian := Some(2)))
  }

  // ----- The steps

  lemma Begins()
    requires Reached(Start())
    ensures Reached(Began())
  {
    hide Reached;
    var s := Start().(tasks := map[0 := Retry(M)]);
    Onto(Start(), Env(NewRequest(0, M)), s);
    Onto(s, Request(EnterLoad(0, 0)), Began());
  }

  lemma Follows()
    requires Reached(Began())
    ensures Reached(Followed())
  {
    hide Reached;
    var s := Began().(tasks := map[0 := Launching(M, 0), 1 := Retry(M)]);
    Onto(Began(), Env(NewRequest(1, M)), s);
    assert {0} + {1} == {0, 1};
    assert Apply(s, Request(EnterJoin(1))).loads == map[0 := Pending(2, {0, 1})];
    Onto(s, Request(EnterJoin(1)), Followed());
  }

  lemma Launches()
    requires Reached(Followed())
    ensures Reached(Launched())
  {
    hide Reached;
    Onto(Followed(), Loader(Launch(0, 0)), Launched());
  }

  lemma Settles()
    requires Reached(Launched())
    ensures Reached(Settled())
  {
    hide Reached;
    Onto(Launched(), Loader(SettleRoom(0)), Settled());
  }

  lemma Publishes()
    requires Reached(Settled())
    ensures Reached(Published(Slot()))
  {
    hide Reached, Grant;
    Onto(Settled(), Loader(Publish(0, 0, 1, 0)), Published(Slot()));
  }

  function Sweeping1(r: Resident): State {
    Published(r).(mu := Some(2), tasks := map[0 := Serving(0), 1 := Joined(M, 0), 2 := Sweeping({}, ForReset)])
  }

  lemma Resets(r: Resident)
    requires Reached(Published(r))
    ensures Reached(Sweeping1(r))
  {
    hide Reached;
    Onto(Published(r), Sweep(StartReset(2)), Sweeping1(r));
  }

  lemma Sweeps(r: Resident, r': Resident)
    requires Reached(Sweeping1(r)) && r.model == M
    requires r' == MarkStopped(r).(ledger := MarkStopped(r).ledger.(guardian := Some(2)))
    ensures Reached(Swept(r', Sweeping({0}, ForReset), Some(2)))
  {
    hide Reached, MarkStopped;
    var s', none: set<Inst> := Apply(Sweeping1(r), Sweep(SweepOne(2, M))), {};
    assert none + {0} == {0};
    assert s'.instances == map[];
    Onto(Sweeping1(r), Sweep(SweepOne(2, M)), Swept(r', Sweeping({0}, ForReset), Some(2)));
  }

  lemma Unlocks(r: Resident)
    requires Reached(Swept(r, Sweeping({0}, ForReset), Some(2)))
    ensures Reached(Swept(r, Reaping({0}, ForReset), None))
  {
    hide Reached;
    Onto(Swept(r, Sweeping({0}, ForReset), Some(2)), Sweep(SweepEnd(2)), Swept(r, Reaping({0}, ForReset), None));
  }

  lemma Gets(r: Resident)
    requires Reached(Swept(r, Reaping({0}, ForReset), None))
    ensures exists s :: Reached(s) && 1 in s.tasks && s.tasks[1] == Slotless(0) && 0 in s.alive && s.residents == map[0 := r]
  {
    hide Reached;
    var s := Swept(r, Reaping({0}, ForReset), None);
    Onto(s, Request(FollowReady(1)), Apply(s, Request(FollowReady(1))));
  }

  lemma SlotIsTaken()
    ensures Slot().model == M && Marked().grants == {0}
  {
  }

  /** It happens: a tuning reset sweeps the Instance away before the follower looks, and the
      follower gets it all the same, alive and without a slot. */
  lemma FollowerWithoutSlot()
    ensures exists s :: Reached(s) && 1 in s.tasks && s.tasks[1] == Slotless(0) && 0 in s.alive
                        && 0 in s.residents && 1 !in s.residents[0].grants
  {
    hide Reached, Slot, Marked;
    FromStart();
    Begins();
    Follows();
    Launches();
    Settles();
    Publishes();
    SlotIsTaken();
    MarkedIs();
    Resets(Slot());
    Sweeps(Slot(), Marked());
    Unlocks(Marked());
    Gets(Marked());
  }

  lemma MarkedIs()
    ensures Marked() == MarkStopped(Slot()).(ledger := MarkStopped(Slot()).ledger.(guardian := Some(2)))
  {
    hide MarkStopped, Slot;
  }
}
