/** Tuning as the Supervisor performs it: launches against a host whose answers are arbitrary,
    a budget that may run out at any look at the clock, and the cache of results. */
module Tuning {
  import opened Options
  import opened TuningSearch

  datatype Model = Model(id: string, digest: string, contextLength: nat, blockCount: uint64)

  /** How a launch goes: the process comes up, is refused, or starts and never gets ready. */
  datatype Answer = Comes | Refused(oom: bool) | NeverReady(oom: bool)

  datatype Clock = Running | BudgetSpent | LoadCancelled

  /** A launch as the host saw it; `beside` are the processes launched before and not stopped,
      `at` is the number of looks at the contexts taken before, and `late` that one of this run
      had found the budget spent. */
  datatype Probe = Probe(flags: Flags, answer: Answer, beside: set<nat>, at: nat, late: bool)

  datatype Attempt = Ran(process: nat) | Failed(oom: bool)

  predicate OutOfMemory(a: Answer) {
    !a.Comes? && a.oom
  }

  // ----- The host

  /** `oracle` answers the n-th launch and `clock` the n-th look at the contexts; both are
      arbitrary, except that the budget of a run lasts for no more than `budget` looks.
      `unstopped` are the processes that were launched and not stopped; any of them may have
      exited by itself. `expired` tells whether a look found the budget of this run spent, and
      `runFrom` is where this run began in the log. */
  class Host {
    const fingerprint: string
    const oracle: (nat, Model, Flags) -> Answer
    const clock: nat -> Clock
    const budget: nat
    var launches: nat
    var looks: nat
    var deadline: nat
    var expired: bool
    var runFrom: nat
    var unstopped: set<nat>
    var log: seq<Probe>

    constructor (fingerprint: string, oracle: (nat, Model, Flags) -> Answer, clock: nat -> Clock, budget: nat)
      ensures Valid() && unstopped == {} && log == []
      ensures this.fingerprint == fingerprint && this.oracle == oracle && this.clock == clock && this.budget == budget
    {
      this.fingerprint, this.oracle, this.clock, this.budget := fingerprint, oracle, clock, budget;
      launches, looks, deadline, expired, runFrom, unstopped, log := 0, 0, budget, false, 0, {}, [];
    }

    ghost predicate Valid()
      reads this
    {
      && (forall p | p in unstopped :: p < launches)
      && budget <= deadline <= looks + budget && runFrom <= |log|
      && (!expired ==> OpenBefore(looks))
      && forall k | runFrom <= k < |log| && !log[k].late :: OpenBefore(log[k].at)
    }

    /** The answers are those of `fits`, and every failure is for lack of memory. */
    ghost predicate Answers(m: Model, fits: Oracle) {
      forall n: nat, f: Flags :: oracle(n, m, f).Comes? == fits(f) && (!oracle(n, m, f).Comes? ==> oracle(n, m, f).oom)
    }

    /** No context ends before its time. */
    ghost predicate Unhurried() {
      forall n: nat :: clock(n) == Running
    }

    /** Some launch since the `from`-th used these flags and ended like this. */
    ghost predicate Seen(from: nat, f: Flags, comes: bool)
      reads this`log
    {
      SeenIn(log, from, f, comes)
    }

    /** The last launch failed for another reason than memory. */
    ghost predicate FailedOtherwise()
      reads this`log
    {
      |log| > 0 && !log[|log| - 1].answer.Comes? && !log[|log| - 1].answer.oom
    }

    /** The last launch used these flags, at the present number of looks, and came up or not. */
    ghost predicate LatestIs(f: Flags, comes: bool)
      reads this
    {
      |log| > 0 && var p := log[|log| - 1]; p.flags == f && p.at == looks && p.late == expired && p.answer.Comes? == comes
    }

    /** The last launch is why the run ended with this error: a failure that is not for memory, or
        the failure of a configuration that had come up before. */
    ghost predicate GivenUp(from: nat, error: Outcome)
      reads this`log
    {
      && |log| > from && !log[|log| - 1].answer.Comes?
      && ((error.Aborted? && !log[|log| - 1].answer.oom) || (error.LaunchFailed? && Seen(from, log[|log| - 1].flags, true)))
    }

    /** Every look of this run before the `n`-th found the contexts open. */
    ghost predicate OpenBefore(n: int)
      reads this
    {
      forall k: nat | deadline - budget <= k < n :: clock(k) == Running
    }

    /** The budget of the run that began at `from` has not been found spent, and there were at most
        two looks for every launch, and `d` more. */
    ghost predicate InTime(from: nat, d: int)
      reads this`expired, this`runFrom, this`log, this`looks, this`deadline
    {
      && !expired && from == runFrom <= |log|
      && looks - (deadline - budget) <= 2 * (|log| - from) + d
    }

    /** So a budget that did not run out early was short for the launches made. */
    ghost predicate Paced(from: nat)
      reads this`expired, this`runFrom, this`log, this`looks, this`deadline
    {
      && from == runFrom <= |log|
      && if expired then Unhurried() ==> budget <= 2 * (|log| - from) else InTime(from, 0)
    }

    lemma Ahead(from: nat, d: int)
      requires InTime(from, d) && d <= 0
      ensures InTime(from, 0) && Paced(from) && !expired
    {
    }

    lemma NotSpent(from: nat)
      requires Paced(from) && !expired
      ensures InTime(from, 0)
    {
    }

    /** The run was halted; its last look was at the load itself, which had been cancelled or not. */
    ghost predicate Halted(wasCancelled: bool)
      reads this
    {
      expired && looks > deadline - budget && looks > 0 && (wasCancelled <==> clock(looks - 1) == LoadCancelled)
    }

    /** A load that was cancelled stays cancelled. */
    ghost predicate CancelStays() {
      forall n: nat, n': nat | n <= n' && clock(n) == LoadCancelled :: clock(n') == LoadCancelled
    }

    /** `context.WithTimeout` for a new run. */
    method StartBudget()
      requires Valid()
      modifies this`deadline, this`expired, this`runFrom
      ensures Valid() && deadline == looks + budget && !expired && runFrom == |log|
    {
      deadline, expired, runFrom := looks + budget, false, |log|;
    }

    method BudgetErr() returns (spent: bool)
      requires Valid()
      modifies this`looks, this`expired
      ensures Valid()
      ensures spent <==> old(looks) >= deadline || clock(old(looks)) != Running
      ensures looks == old(looks) + 1 && expired == (old(expired) || spent)
    {
      spent := looks >= deadline || clock(looks) != Running;
      looks, expired := looks + 1, expired || spent;
    }

    method LoadErr() returns (cancelled: bool)
      requires Valid() && expired
      modifies this`looks
      ensures Valid()
      ensures looks == old(looks) + 1 && (cancelled <==> clock(old(looks)) == LoadCancelled)
    {
      cancelled := clock(looks) == LoadCancelled;
      looks := looks + 1;
    }

    method Stop(process: nat)
      requires Valid()
      modifies this`unstopped
      ensures Valid()
      ensures unstopped == old(unstopped) - {process}
    {
      unstopped := unstopped - {process};
    }

    /** `launchConfig`: a process that starts but does not get ready is stopped again. */
    method LaunchConfig(m: Model, f: Flags) returns (r: Attempt)
      requires Valid()
      modifies this`launches, this`unstopped, this`log
      ensures Valid()
      ensures exists a :: log == old(log) + [Probe(f, a, old(unstopped), looks, expired)] && a == oracle(old(launches), m, f)
                          && (a.Comes? <==> r.Ran?) && (r.Failed? ==> a.oom == r.oom)
      ensures r.Ran? ==> r.process !in old(unstopped) && unstopped == old(unstopped) + {r.process}
      ensures r.Failed? ==> unstopped == old(unstopped)
    {
      var a := oracle(launches, m, f);
      var p := launches;
      launches, log := launches + 1, log + [Probe(f, a, unstopped, looks, expired)];
      match a
      case Refused(oom) =>
        r := Failed(oom);
      case NeverReady(oom) =>
        unstopped := unstopped + {p};
        Stop(p);
        r := Failed(oom);
      case Comes =>
        unstopped := unstopped + {p};
        r := Ran(p);
    }
  }

  ghost predicate SeenIn(log: seq<Probe>, from: nat, f: Flags, comes: bool) {
    exists k :: from <= k < |log| && log[k].flags == f && (if comes then log[k].answer.Comes? else OutOfMemory(log[k].answer))
  }

  lemma StillSeen(log: seq<Probe>, log': seq<Probe>, from: nat, f: Flags, comes: bool)
    requires SeenIn(log, from, f, comes) && |log| <= |log'| && log'[..|log|] == log
    ensures SeenIn(log', from, f, comes)
  {
    var k :| from <= k < |log| && log[k].flags == f && (if comes then log[k].answer.Comes? else OutOfMemory(log[k].answer));
    assert log'[k] == log'[..|log|][k];
  }

  // ----- The cache

  datatype Entry = Entry(digest: string, fingerprint: string, requestedCtx: nat, kvCacheType: string, flags: Flags)

  datatype CacheFile = CacheFile(fingerprint: string, entries: map<string, Entry>)

  function EntryFor(m: Model, fingerprint: string, f: Flags): Entry {
    Entry(m.digest, fingerprint, RequestedCtx(m.contextLength), "f16", f)
  }

  datatype Rung = Found(offload: nat) | NothingFits | Spent | Cancelled | OtherError

  datatype ProbeStep = Fits | TooBig | Ends(why: Rung)

  datatype RungOutcome = Came(process: nat, flags: Flags) | NextRung | FallBack | Fails(error: Outcome)

  datatype Outcome = Launched(process: nat, flags: Flags) | Unservable | Aborted | LoadCancelledError | LaunchFailed

  class Supervisor {
    const host: Host
    const cachePath: string
    var tuned: map<string, Entry>
    var file: Option<CacheFile>
    var probeCount: nat

    constructor (host: Host, cachePath: string, file: Option<CacheFile>)
      ensures this.host == host && this.cachePath == cachePath && this.file == file && tuned == map[] && probeCount == 0
    {
      this.host, this.cachePath, this.file := host, cachePath, file;
      tuned, probeCount := map[], 0;
    }

    method Save()
      modifies this`file
      ensures file == if cachePath == "" then old(file) else Some(CacheFile(host.fingerprint, tuned))
    {
      if cachePath == "" {
        return;
      }
      file := Some(CacheFile(host.fingerprint, tuned));
    }

    method Record(m: Model, f: Flags)
      modifies this`tuned, this`file
      ensures tuned == old(tuned)[m.id := EntryFor(m, host.fingerprint, f)]
      ensures file == if cachePath == "" then old(file) else Some(CacheFile(host.fingerprint, tuned))
    {
      tuned := tuned[m.id := EntryFor(m, host.fingerprint, f)];
      Save();
    }

    /** No process of this tuning run is left, and none was at any of its launches so far, all of
        them made in time. */
    ghost predicate Clean(from: nat, base: set<nat>)
      reads host`log, host`unstopped
    {
      host.unstopped == base && Orderly(from, base)
    }

    ghost predicate Orderly(from: nat, base: set<nat>)
      reads host`log
    {
      forall k | from <= k < |host.log| :: host.log[k].beside == base && !host.log[k].late
    }

    /** One counted probe. */
    method CountedLaunch(m: Model, f: Flags, ghost from: nat, ghost d: int, ghost base: set<nat>, ghost fits: Oracle)
        returns (r: Attempt)
      requires host.Valid() && Clean(from, base) && from <= |host.log| && host.InTime(from, d)
      modifies this`probeCount, host`launches, host`unstopped, host`log
      ensures host.Valid() && probeCount == old(probeCount) + 1
      ensures |host.log| == |old(host.log)| + 1 && host.log[..|old(host.log)|] == old(host.log)
      ensures host.InTime(from, d - 2)
      ensures host.log[|old(host.log)|].flags == f && host.log[|old(host.log)|].answer.Comes? == r.Ran?
      ensures Orderly(from, base)
      ensures r.Ran? ==> r.process !in base && host.unstopped == base + {r.process} && host.Seen(from, f, true)
      ensures r.Failed? ==> Clean(from, base) && (r.oom ==> host.Seen(from, f, false)) && (!r.oom ==> host.FailedOtherwise())
      ensures host.Answers(m, fits) ==> (r.Ran? <==> fits(f)) && (r.Failed? ==> r.oom)
    {
      probeCount := probeCount + 1;
      r := host.LaunchConfig(m, f);
      assert host.log[|host.log| - 1].flags == f;
    }

    /** What `tune` does whenever it finds the budget spent. */
    method BudgetGone(ghost from: nat, ghost d: int) returns (gone: bool, why: Rung)
      requires host.Valid() && host.InTime(from, d) && d <= 0
      modifies host`looks, host`expired
      ensures host.Valid() && (gone ==> why.Spent? || why.Cancelled?)
      ensures gone <==> old(host.looks) >= host.deadline || host.clock(old(host.looks)) != Running
      ensures if gone then host.expired && host.Halted(why.Cancelled?) && host.Paced(from) else host.InTime(from, d + 1)
      ensures !gone ==> !host.expired && host.looks == old(host.looks) + 1
    {
      gone := host.BudgetErr();
      why := Spent;
      if gone {
        var cancelled := host.LoadErr();
        why := if cancelled then Cancelled else Spent;
      }
    }

    /** The body of the bisection: a probe that comes up is stopped again. */
    method BisectProbe(m: Model, f: Flags, ghost from: nat, ghost base: set<nat>, ghost fits: Oracle)
        returns (r: ProbeStep)
      requires host.Valid() && Clean(from, base) && from <= |host.log| && host.InTime(from, 0)
      modifies this`probeCount, host`launches, host`looks, host`expired, host`unstopped, host`log
      ensures host.Valid() && Clean(from, base) && host.Paced(from)
      ensures |host.log| >= |old(host.log)| && host.log[..|old(host.log)|] == old(host.log)
      ensures probeCount - old(probeCount) == |host.log| - |old(host.log)| <= 1
      ensures r.Fits? ==> host.Seen(from, f, true)
      ensures r.TooBig? ==> host.Seen(from, f, false)
      ensures r.Ends? ==> r.why.OtherError? || r.why.Spent? || r.why.Cancelled?
      ensures host.expired <==> r.Ends? && !r.why.OtherError?
      ensures host.expired ==> host.Halted(r.why.Cancelled?)
      ensures r.Ends? && r.why.OtherError? ==> |host.log| > |old(host.log)| && host.FailedOtherwise()
      ensures !r.Ends? ==> old(host.looks) < host.looks && old(host.looks) < host.deadline
      ensures host.Answers(m, fits) && !host.expired ==> r == if fits(f) then Fits else TooBig
    {
      hide host.InTime, host.Paced, host.Halted, host.Valid, Orderly;
      var gone, why := BudgetGone(from, 0);
      if gone {
        return Ends(why);
      }
      var a := CountedLaunch(m, f, from, 1, base, fits);
      if a.Ran? {
        host.Stop(a.process);
        host.Ahead(from, -1);
        return Fits;
      }
      gone, why := BudgetGone(from, -1);
      if gone {
        return Ends(why);
      }
      host.Ahead(from, 0);
      return if a.oom then TooBig else Ends(OtherError);
    }

    /** The inner loop of `tune`, after the launch at `maxOffload` ran out of memory. It ends
        because the budget does, if not before. */
    method BisectRung(m: Model, ctxLen: nat, maxOffload: uint64, ghost from: nat, ghost base: set<nat>, ghost fits: Oracle)
        returns (r: Rung)
      requires host.Valid() && Clean(from, base) && from <= |host.log| && host.InTime(from, 0)
      requires host.Seen(from, Flags(ctxLen, maxOffload), false)
      modifies this`probeCount, host`launches, host`looks, host`expired, host`unstopped, host`log
      ensures host.Valid() && Clean(from, base) && host.Paced(from)
      ensures |host.log| >= |old(host.log)| && host.log[..|old(host.log)|] == old(host.log)
      ensures probeCount - old(probeCount) == |host.log| - |old(host.log)|
      ensures maxOffload != TWO63 || (host.Answers(m, fits) && !Bisect(FitsAt(fits, ctxLen), 0, High(maxOffload)).Endless?) ==>
                |host.log| - |old(host.log)| <= Digits(maxOffload)
      ensures host.expired <==> r.Spent? || r.Cancelled?
      ensures host.expired ==> host.Halted(r.Cancelled?)
      ensures r.OtherError? ==> |host.log| > |old(host.log)| && host.FailedOtherwise()
      // For any answers whatsoever: what was found came up, and one more ran out of memory.
      ensures r.Found? ==> r.offload < maxOffload
                           && host.Seen(from, Flags(ctxLen, r.offload), true) && host.Seen(from, Flags(ctxLen, r.offload + 1), false)
      ensures r.NothingFits? && 0 < maxOffload <= TWO63 ==> host.Seen(from, Flags(ctxLen, 0), false)
      // For the answers of an oracle: the result of the bisection, which then has an end.
      ensures host.Answers(m, fits) && !host.expired ==>
                match Bisect(FitsAt(fits, ctxLen), 0, High(maxOffload))
                case Nothing => r == NothingFits
                case Best(b) => r == Found(b)
                case Endless => false
    {
      host.Ahead(from, 0);
      HighRange(maxOffload);
      BisectStarts(FitsAt(fits, ctxLen), maxOffload);
      hide Bisect, FitsAt, Digits, High, LoopFrom, Clean, Orderly, host.Paced, host.InTime, host.Halted, host.FailedOtherwise,
           host.Valid, host.Answers, host.Unhurried;
      var low, high := 0, High(maxOffload);
      var found, best := false, 0;
      ghost var g := FitsAt(fits, ctxLen);
      while low <= high
        invariant host.Valid() && Clean(from, base) && host.InTime(from, 0) && host.Paced(from) && !host.expired
        invariant |host.log| >= |old(host.log)| && host.log[..|old(host.log)|] == old(host.log)
        invariant probeCount - old(probeCount) == |host.log| - |old(host.log)|
        invariant Bracketed(host.log, ctxLen, maxOffload, from, low, high, found, best)
        invariant maxOffload > TWO63 ==> |host.log| == |old(host.log)|
        invariant 0 <= low && maxOffload <= TWO63 ==> |host.log| - |old(host.log)| + Digits(high + 1 - low) <= Digits(maxOffload)
        invariant host.Answers(m, fits) ==> LoopFrom(g, 0, High(maxOffload)) == LoopFrom(g, low, high)
        decreases host.deadline - host.looks
      {
        var halt;
        halt, low, high, found, best := BisectTurn(m, ctxLen, maxOffload, low, high, found, best, from, base, fits);
        if halt.Some? {
          OverflownIsEndless(g, low, high);
          return halt.value;
        }
      }
      LoopEnds(g, low, high);
      r := if found then Found(best) else NothingFits;
    }

    /** One turn of that loop. */
    method BisectTurn(m: Model, ctxLen: nat, maxOffload: uint64, low: int, high: int, found: bool, best: nat,
                      ghost from: nat, ghost base: set<nat>, ghost fits: Oracle)
        returns (halt: Option<Rung>, low': int, high': int, found': bool, best': nat)
      requires host.Valid() && Clean(from, base) && from <= |host.log| && host.InTime(from, 0)
      requires low <= high && Bracketed(host.log, ctxLen, maxOffload, from, low, high, found, best)
      modifies this`probeCount, host`launches, host`looks, host`expired, host`unstopped, host`log
      ensures host.Valid() && Clean(from, base) && host.Paced(from)
      ensures |host.log| >= |old(host.log)| && host.log[..|old(host.log)|] == old(host.log)
      ensures probeCount - old(probeCount) == |host.log| - |old(host.log)| <= 1
      ensures host.expired <==> halt == Some(Spent) || halt == Some(Cancelled)
      ensures host.expired ==> host.Halted(halt == Some(Cancelled))
      ensures halt.Some? ==> host.expired || (halt == Some(OtherError) && |host.log| > |old(host.log)| && host.FailedOtherwise())
      ensures halt.Some? ==> low' == low && high' == high && (0 <= low ==> Digits(high + 1 - low) > 0)
      ensures host.Answers(m, fits) && halt.Some? ==> host.expired
      ensures halt.None? ==>
                && host.InTime(from, 0) && old(host.looks) < host.looks && old(host.looks) < host.deadline
                && Bracketed(host.log, ctxLen, maxOffload, from, low', high', found', best') && (low < 0 ==> low' < 0)
      ensures halt.None? && 0 <= low && 0 <= low' ==> high' + 1 >= low' && Digits(high' + 1 - low') + 1 <= Digits(high + 1 - low)
      ensures host.Answers(m, fits) && halt.None? ==>
                LoopFrom(FitsAt(fits, ctxLen), low', high') == LoopFrom(FitsAt(fits, ctxLen), low, high)
    {
      hide host.Valid, host.Answers, host.Unhurried, host.Paced, host.InTime, host.Halted, host.FailedOtherwise, SeenIn;
      hide Clean, Orderly, Bracketed, LoopFrom, Bisect, FitsAt, Digits, High, Mid, Wrap, AsUint;
      low', high', found', best' := low, high, found, best;
      var mid := Mid(low, high);
      ghost var log := host.log;
      SpanInRange(log, ctxLen, maxOffload, from, low, high, found, best);
      LoopNarrows(fits, ctxLen, low, high);
      RangeLeft(low, high);
      var step := BisectProbe(m, Flags(ctxLen, AsUint(mid)), from, base, fits);
      StillBracketed(log, host.log, ctxLen, maxOffload, from, low, high, found, best);
      if !step.Ends? {
        host.NotSpent(from);
        Narrows(host.log, ctxLen, maxOffload, from, low, high, found, best, step.Fits?);
      }
      match step
      case Ends(why) => halt := Some(why);
      case Fits => halt, found', best', low' := None, true, AsUint(mid), Wrap(mid + 1);
      case TooBig => halt, high' := None, Wrap(mid - 1);
    }

    /** One turn of the outer loop of `tune`. */
    method TryRung(m: Model, ctxLen: nat, maxOffload: uint64, ghost from: nat, ghost base: set<nat>, ghost fits: Oracle)
        returns (r: RungOutcome)
      requires host.Valid() && Clean(from, base) && from <= |host.log| && host.InTime(from, 0)
      modifies this`probeCount, host`launches, host`looks, host`expired, host`unstopped, host`log
      ensures host.Valid() && host.Paced(from)
      ensures |host.log| >= |old(host.log)| && host.log[..|old(host.log)|] == old(host.log)
      ensures Orderly(from, base)
      ensures if |host.log| == |old(host.log)| then host.expired && !r.Came? && !r.NextRung?
              else host.log[|old(host.log)|].flags == Flags(ctxLen, maxOffload)
      ensures host.expired <==> r.FallBack? || r == Fails(LoadCancelledError)
      ensures host.expired ==> host.Halted(!r.FallBack?)
      ensures r.Fails? && !host.expired ==> host.GivenUp(from, r.error)
      ensures probeCount - old(probeCount) == |host.log| - |old(host.log)|
      ensures maxOffload != TWO63 || (host.Answers(m, fits) && !SearchRung(fits, ctxLen, maxOffload).Endless?) ==>
                |host.log| - |old(host.log)| <= Digits(maxOffload) + if r.NextRung? then 1 else 2
      ensures r.Came? ==> r.process !in base && host.unstopped == base + {r.process} && host.Seen(from, r.flags, true)
                          && r.flags.ctxLen == ctxLen && r.flags.offload <= maxOffload
      ensures r.Came? && r.flags.offload < maxOffload ==> host.Seen(from, Flags(ctxLen, r.flags.offload + 1), false)
      ensures !r.Came? ==> host.unstopped == base
      ensures r.Fails? ==> !r.error.Launched? && !r.error.Unservable?
      ensures r.NextRung? ==> host.Seen(from, Flags(ctxLen, maxOffload), false)
                              && (0 < maxOffload <= TWO63 ==> host.Seen(from, Flags(ctxLen, 0), false))
      ensures host.Answers(m, fits) && !host.expired ==>
                match SearchRung(fits, ctxLen, maxOffload)
                case Nothing => r.NextRung?
                case Best(b) => r.Came? && r.flags == Flags(ctxLen, b)
                case Endless => false
    {
      hide Bisect, FitsAt, Digits, High, host.Answers, host.Unhurried, host.InTime, host.Paced, host.Halted, host.Valid, Orderly, SeenIn;
      var gone, why := BudgetGone(from, 0);
      if gone {
        return if why.Cancelled? then Fails(LoadCancelledError) else FallBack;
      }
      var a := CountedLaunch(m, Flags(ctxLen, maxOffload), from, 1, base, fits);
      if a.Ran? {
        host.Ahead(from, -1);
        return Came(a.process, Flags(ctxLen, maxOffload));
      }
      gone, why := BudgetGone(from, -1);
      if gone {
        return if why.Cancelled? then Fails(LoadCancelledError) else FallBack;
      }
      host.Ahead(from, 0);
      if !a.oom {
        return Fails(Aborted);
      }
      r := SearchBelow(m, ctxLen, maxOffload, from, base, fits);
    }

    /** The rest of that turn, once the launch at the top ran out of memory. */
    method SearchBelow(m: Model, ctxLen: nat, maxOffload: uint64, ghost from: nat, ghost base: set<nat>, ghost fits: Oracle)
        returns (r: RungOutcome)
      requires host.Valid() && Clean(from, base) && from <= |host.log| && host.InTime(from, 0)
      requires host.Seen(from, Flags(ctxLen, maxOffload), false)
      modifies this`probeCount, host`launches, host`looks, host`expired, host`unstopped, host`log
      ensures host.Valid() && host.Paced(from)
      ensures |host.log| >= |old(host.log)| && host.log[..|old(host.log)|] == old(host.log)
      ensures Orderly(from, base)
      ensures host.expired <==> r.FallBack? || r == Fails(LoadCancelledError)
      ensures host.expired ==> host.Halted(!r.FallBack?)
      ensures r.Fails? && !host.expired ==> host.GivenUp(from, r.error)
      ensures probeCount - old(probeCount) == |host.log| - |old(host.log)|
      ensures maxOffload != TWO63 || (host.Answers(m, fits) && !Bisect(FitsAt(fits, ctxLen), 0, High(maxOffload)).Endless?) ==>
                |host.log| - |old(host.log)| <= Digits(maxOffload) + if r.NextRung? then 0 else 1
      ensures host.unstopped == if r.Came? then base + {r.process} else base
      ensures r.Came? ==> r.process !in base && host.Seen(from, r.flags, true) && r.flags.ctxLen == ctxLen && r.flags.offload < maxOffload
                          && host.Seen(from, Flags(ctxLen, r.flags.offload + 1), false)
      ensures r.Fails? ==> !r.error.Launched? && !r.error.Unservable?
      ensures r.NextRung? ==> host.Seen(from, Flags(ctxLen, maxOffload), false)
                              && (0 < maxOffload <= TWO63 ==> host.Seen(from, Flags(ctxLen, 0), false))
      ensures host.Answers(m, fits) && !host.expired ==>
                match Bisect(FitsAt(fits, ctxLen), 0, High(maxOffload))
                case Nothing => r.NextRung?
                case Best(b) => r.Came? && r.flags == Flags(ctxLen, b)
                case Endless => false
    {
      hide Bisect, FitsAt, Digits, High, host.Answers, host.Unhurried, host.InTime, host.Paced, host.Halted, host.Valid, Orderly, SeenIn;
      ghost var first := host.log;
      var rung := BisectRung(m, ctxLen, maxOffload, from, base, fits);
      StillSeen(first, host.log, from, Flags(ctxLen, maxOffload), false);
      match rung
      case Spent => r := FallBack;
      case Cancelled => r := Fails(LoadCancelledError);
      case OtherError => r := Fails(Aborted);
      case NothingFits => r := NextRung;
      case Found(best) =>
        host.NotSpent(from);
        ghost var log := host.log;
        r := LaunchBest(m, Flags(ctxLen, best), from, base, fits);
        StillSeen(log, host.log, from, Flags(ctxLen, best), true);
        StillSeen(log, host.log, from, Flags(ctxLen, best + 1), false);
        if host.Answers(m, fits) {
          FoundFits(fits, ctxLen, maxOffload);
        }
    }

    /** The winner of the bisection is launched once more, this time to be returned. */
    method LaunchBest(m: Model, f: Flags, ghost from: nat, ghost base: set<nat>, ghost fits: Oracle)
        returns (r: RungOutcome)
      requires host.Valid() && Clean(from, base) && from <= |host.log| && host.InTime(from, 0)
      modifies this`probeCount, host`launches, host`looks, host`expired, host`unstopped, host`log
      ensures host.Valid() && host.Paced(from) && probeCount == old(probeCount) + 1
      ensures |host.log| == |old(host.log)| + 1 && host.log[..|old(host.log)|] == old(host.log)
      ensures Orderly(from, base)
      ensures r.Came? ==> r.process !in base && host.unstopped == base + {r.process} && r.flags == f && host.Seen(from, f, true)
      ensures host.expired <==> r.FallBack? || r == Fails(LoadCancelledError)
      ensures host.expired ==> host.Halted(!r.FallBack?)
      ensures r == Fails(LaunchFailed) ==> !host.log[|host.log| - 1].answer.Comes? && host.log[|host.log| - 1].flags == f
      ensures !r.Came? ==> host.unstopped == base && (r.FallBack? || r == Fails(LoadCancelledError) || r == Fails(LaunchFailed))
      ensures host.Answers(m, fits) && fits(f) ==> r.Came?
    {
      hide host.InTime, host.Paced, host.Halted, host.Valid, Orderly;
      var a := CountedLaunch(m, f, from, 0, base, fits);
      if a.Ran? {
        host.Ahead(from, -2);
        return Came(a.process, f);
      }
      var gone, why := BudgetGone(from, -2);
      if gone {
        return if why.Cancelled? then Fails(LoadCancelledError) else FallBack;
      }
      host.Ahead(from, -1);
      return Fails(LaunchFailed);
    }

    /** The loop that builds the ladder. */
    method BuildLadder(ctxLen: nat) returns (ladder: seq<nat>)
      ensures ladder == Ladder(ctxLen)
    {
      var steps := [ctxLen] + STEPS;
      ladder := [];
      var i := 0;
      while i < |steps|
        invariant 0 <= i <= |steps|
        invariant ClimbAll(ladder, ctxLen, steps[i..]) == Ladder(ctxLen)
      {
        var step := steps[i];
        assert steps[i..][1..] == steps[i + 1..];
        if step <= ctxLen {
          if |ladder| == 0 || ladder[|ladder| - 1] != step {
            ladder := ladder + [step];
          }
        }
        i := i + 1;
      }
    }

    /** The conservative configuration for a spent budget; its launch is not counted. */
    method LaunchFallback(m: Model, ghost from: nat, ghost base: set<nat>) returns (r: Outcome)
      requires host.Valid() && Clean(from, base) && from <= |host.log|
      modifies this`tuned, this`file, host`launches, host`unstopped, host`log
      ensures host.Valid() && |host.log| == |old(host.log)| + 1 && host.log[..|old(host.log)|] == old(host.log)
      ensures host.LatestIs(FallbackFlags(m), r.Launched?)
      ensures host.log[|old(host.log)|].beside == base
      ensures r.Launched? || r.LaunchFailed?
      ensures r.Launched? ==> r.process !in base && host.unstopped == base + {r.process} && host.Seen(from, r.flags, true)
                              && r.flags == FallbackFlags(m) && Recorded(m, r.flags, old(tuned), old(file))
      ensures r.LaunchFailed? ==> host.unstopped == base && tuned == old(tuned) && file == old(file)
    {
      var f := FallbackFlags(m);
      var a := host.LaunchConfig(m, f);
      assert host.log[|host.log| - 1].flags == f;
      if a.Failed? {
        return LaunchFailed;
      }
      Record(m, f);
      return Launched(a.process, f);
    }

    ghost predicate Recorded(m: Model, f: Flags, before: map<string, Entry>, fileBefore: Option<CacheFile>)
      reads this
    {
      && tuned == before[m.id := EntryFor(m, host.fingerprint, f)]
      && file == if cachePath == "" then fileBefore else Some(CacheFile(host.fingerprint, tuned))
    }

    /** The outer loop of `tune`: the outcome of the first rung that is not passed by, or
        `NextRung` where no rung is left. */
    method WalkLadder(m: Model, ladder: seq<nat>, maxOffload: uint64, ghost from: nat, ghost base: set<nat>, ghost fits: Oracle)
        returns (rung: RungOutcome)
      requires host.Valid() && Clean(from, base) && |host.log| == from && host.InTime(from, 0)
      requires ladder == Ladder(RequestedCtx(m.contextLength)) && maxOffload == MaxOffload(m.blockCount)
      modifies this`probeCount, host`launches, host`looks, host`expired, host`unstopped, host`log
      ensures host.Valid() && host.Paced(from)
      ensures |host.log| >= from && Orderly(from, base)
      ensures Walked(m, from, rung)
      ensures probeCount - old(probeCount) == |host.log| - from
      ensures maxOffload != TWO63 || (host.Answers(m, fits) && !Search(fits, ladder, maxOffload).Endless?) ==> |host.log| - from <= RunBound(m)
      ensures host.unstopped == if rung.Came? then base + {rung.process} else base
      ensures rung.Came? ==> rung.process !in base
      ensures host.Answers(m, fits) && !host.expired ==>
                match Search(fits, ladder, maxOffload)
                case Best(f) => rung.Came? && rung.flags == f
                case Nothing => rung.NextRung?
                case Endless => false
    {
      hide Search, SearchRung, Digits, Allowance, Ladder, RequestedCtx, MaxOffload, host.Answers, host.Unhurried;
      TopOfLadder(m);
      var i := 0;
      while i < |ladder|
        invariant 0 <= i <= |ladder|
        invariant host.Valid() && Clean(from, base) && host.InTime(from, 0)
        invariant if i == 0 then |host.log| == from else from < |host.log| && host.log[from].flags == TopFlags(m)
        invariant probeCount - old(probeCount) == |host.log| - from
        invariant maxOffload != TWO63 || (host.Answers(m, fits) && !Search(fits, ladder, maxOffload).Endless?) ==>
                    |host.log| - from <= Allowance(i, maxOffload)
        invariant maxOffload <= TWO63 ==> forall j | 0 <= j < i :: host.Seen(from, Flags(ladder[j], 0), false)
        invariant host.Answers(m, fits) ==> Search(fits, ladder, maxOffload) == Search(fits, ladder[i..], maxOffload)
      {
        rung := TryRung(m, ladder[i], maxOffload, from, base, fits);
        SearchTurns(fits, ladder, i, maxOffload);
        AllowanceGrows(i, |ladder|, maxOffload);
        if !rung.NextRung? {
          return;
        }
        i := i + 1;
      }
      SearchEnds(fits, ladder, maxOffload);
      rung := NextRung;
    }

    /** What the outer loop shows for its outcome, for any answers whatsoever. */
    ghost predicate Walked(m: Model, from: nat, rung: RungOutcome)
      reads host
    {
      && from <= |host.log|
      && (if |host.log| == from then host.expired else host.log[from].flags == TopFlags(m))
      && (host.expired <==> rung.FallBack? || rung == Fails(LoadCancelledError))
      && (host.expired ==> host.Halted(!rung.FallBack?))
      && (rung.Came? ==> host.Seen(from, rung.flags, true) && InSpace(m, rung.flags))
      && (rung.Came? && rung.flags.offload < MaxOffload(m.blockCount) ==>
            host.Seen(from, Flags(rung.flags.ctxLen, rung.flags.offload + 1), false))
      && (rung.NextRung? && MaxOffload(m.blockCount) <= TWO63 ==>
            forall c | c in Ladder(RequestedCtx(m.contextLength)) :: host.Seen(from, Flags(c, 0), false))
      && (rung.Fails? ==> !rung.error.Launched? && !rung.error.Unservable? && (!host.expired ==> host.GivenUp(from, rung.error)))
    }

    /** What a tuning run that started at `from` in the log shows for its result, for any answers
        whatsoever. */
    ghost predicate Searched(m: Model, from: nat, r: Outcome)
      reads host
    {
      // The search starts at the top, whatever was known before.
      && (from < |host.log| ==> host.log[from].flags == TopFlags(m) || (host.expired && host.log[from].flags == FallbackFlags(m)))
      // What is returned came up, and lies in the search space.
      && (r.Launched? ==> host.Seen(from, r.flags, true) && InSpace(m, r.flags))
      // One more layer ran out of memory, unless the budget was spent and this is the fallback.
      && (r.Launched? && r.flags.offload < MaxOffload(m.blockCount) ==>
            host.Seen(from, Flags(r.flags.ctxLen, r.flags.offload + 1), false) || (host.expired && r.flags == FallbackFlags(m)))
      // Unservable: on every rung even the smallest configuration ran out of memory.
      && (r.Unservable? && MaxOffload(m.blockCount) <= TWO63 ==>
            forall c | c in Ladder(RequestedCtx(m.contextLength)) :: host.Seen(from, Flags(c, 0), false))
      // A budget that is spent ends in the fallback, and nothing else does unless the load was cancelled.
      && (host.expired && !r.LoadCancelledError? ==>
            && |host.log| > from && host.LatestIs(FallbackFlags(m), r.Launched?)
            && (if r.Launched? then r.flags == FallbackFlags(m) else r.LaunchFailed?))
      && (!host.expired ==> r.Launched? || r.Unservable? || host.GivenUp(from, r))
    }

    /** The looks of the latest run, which began at look `start`, at a load that once cancelled stays
        cancelled: the run ends with that error exactly if some look found it so, and nothing was
        launched after such a look. */
    ghost predicate Heeded(from: nat, start: nat, r: Outcome)
      reads host
    {
      && (r.LoadCancelledError? <==> exists n: nat :: start <= n < host.looks && host.clock(n) == LoadCancelled)
      && forall k, n: nat | from <= k < |host.log| && start <= n < host.log[k].at :: host.clock(n) != LoadCancelled
    }

    /** How `tune` returns. */
    method Conclude(m: Model, rung: RungOutcome, ghost from: nat, ghost base: set<nat>) returns (r: Outcome)
      requires host.Valid() && from == host.runFrom && Walked(m, from, rung) && Orderly(from, base)
      requires !rung.Came? ==> host.unstopped == base
      modifies this`tuned, this`file, host`launches, host`unstopped, host`log
      ensures host.Valid() && |host.log| == |old(host.log)| + (if rung.FallBack? then 1 else 0)
      ensures forall k | from <= k < |host.log| :: host.log[k].beside == base
      ensures r == match rung
                   case Came(p, f) => Launched(p, f)
                   case Fails(error) => error
                   case NextRung => Unservable
                   case FallBack => if r.Launched? then Launched(r.process, FallbackFlags(m)) else LaunchFailed
      ensures rung.Came? ==> host.unstopped == old(host.unstopped)
      ensures rung.FallBack? && r.Launched? ==> r.process !in base && host.unstopped == base + {r.process}
      ensures !r.Launched? ==> tuned == old(tuned) && file == old(file) && host.unstopped == base
      ensures r.Launched? ==> Recorded(m, r.flags, old(tuned), old(file))
      ensures Searched(m, from, r) && (host.CancelStays() ==> Heeded(from, host.deadline - host.budget, r))
    {
      hide InSpace, FallbackFlags, host.Unhurried, host.Answers;
      match rung {
        case Came(p, f) =>
          Record(m, f);
          r := Launched(p, f);
        case Fails(error) =>
          r := error;
        case NextRung =>
          r := Unservable;
        case FallBack =>
          FallbackInSpace(m);
          r := LaunchFallback(m, from, base);
      }
      if host.CancelStays() {
        HaltHeeds(from, host.deadline - host.budget, r);
      }
    }

    lemma HaltHeeds(from: nat, start: nat, r: Outcome)
      requires host.Valid() && host.CancelStays() && from == host.runFrom && start == host.deadline - host.budget
      requires if host.expired then host.Halted(r.LoadCancelledError?) else !r.LoadCancelledError?
      requires forall k | from <= k < |host.log| && host.log[k].late ::
                 host.expired && !r.LoadCancelledError? && host.log[k].at == host.looks
      ensures Heeded(from, start, r)
    {
      hide host.CancelStays;
      if host.expired {
        var last: nat := host.looks - 1;
        if r.LoadCancelledError? {
          assert start <= last < host.looks && host.clock(last) == LoadCancelled;
        } else {
          NeverCancelled(last);
        }
      }
    }

    lemma NeverCancelled(last: nat)
      requires host.CancelStays() && host.clock(last) != LoadCancelled
      ensures forall n: nat | n <= last :: host.clock(n) != LoadCancelled
    {
    }

    /** A whole tuning run. */
    method Tune(m: Model, ghost fits: Oracle) returns (r: Outcome)
      requires host.Valid()
      modifies this, host
      ensures host.Valid() && probeCount == 0
      // Processes: at every launch of the run all its earlier ones were stopped; a success
      // leaves exactly the one it returns, an error leaves none.
      ensures |host.log| >= |old(host.log)| && forall k | |old(host.log)| <= k < |host.log| :: host.log[k].beside == old(host.unstopped)
      ensures r.Launched? ==> r.process !in old(host.unstopped) && host.unstopped == old(host.unstopped) + {r.process}
      ensures !r.Launched? ==> host.unstopped == old(host.unstopped)
      // The cache: a success records the flags that came up, an error changes nothing.
      ensures r.Launched? ==> Recorded(m, r.flags, old(tuned), old(file))
      ensures !r.Launched? ==> tuned == old(tuned) && file == old(file)
      ensures Searched(m, |old(host.log)|, r)
      ensures host.CancelStays() ==> Heeded(|old(host.log)|, old(host.looks), r)
      // Work, and the budget that is enough for it.
      ensures MaxOffload(m.blockCount) != TWO63 || (host.Answers(m, fits) && !SearchFor(m, fits).Endless?) ==>
                && |host.log| - |old(host.log)| <= RunBound(m) + (if host.expired then 1 else 0)
                && (host.Unhurried() && host.budget > 2 * RunBound(m) ==> !host.expired)
      // For the answers of an oracle, in time: the result of the search, which then has an end.
      ensures host.Answers(m, fits) && !host.expired ==> EndsAs(SearchFor(m, fits), r)
    {
      hide Search, Ladder, FallbackFlags, RequestedCtx, MaxOffload, RunBound, host.Answers, host.Unhurried;
      probeCount := 0;
      host.StartBudget();
      ghost var from, base := |host.log|, host.unstopped;
      var ladder := BuildLadder(RequestedCtx(m.contextLength));
      var rung := WalkLadder(m, ladder, MaxOffload(m.blockCount), from, base, fits);
      probeCount := 0;
      r := Conclude(m, rung, from, base);
    }

    // ----- Answering from the cache

    /** `launchInstance`. The last postconditions say that the cache is invisible: where the
        answers are a function of what the cache is keyed by, and the entries are what a search
        for their own key returns, an unpinned launch ends exactly as a fresh search would. */
    method LaunchInstance(m: Model, pin: Option<Flags>, ghost w: World) returns (r: Outcome)
      requires host.Valid()
      modifies this, host
      ensures host.Valid() && |host.log| >= |old(host.log)|
      ensures r.Launched? ==> r.process !in old(host.unstopped) && host.unstopped == old(host.unstopped) + {r.process}
      ensures !r.Launched? ==> host.unstopped == old(host.unstopped)
      // A pin always wins and never touches the cache.
      ensures pin.Some? ==> Verbatim(pin.value, |old(host.log)|, r) && tuned == old(tuned) && file == old(file)
      // An entry is used exactly if fingerprint, digest, requested context and KV type all agree;
      // otherwise there is a search from the top, and its result replaces the entry.
      ensures pin.None? && Hits(old(tuned), m, host.fingerprint) ==>
                Verbatim(old(tuned)[m.id].flags, |old(host.log)|, r) && tuned == old(tuned) && file == old(file)
      ensures pin.None? && !Hits(old(tuned), m, host.fingerprint) ==>
                && Searched(m, |old(host.log)|, r)
                && (host.CancelStays() ==> Heeded(|old(host.log)|, old(host.looks), r))
                && tuned == if r.Launched? then old(tuned)[m.id := EntryFor(m, host.fingerprint, r.flags)] else old(tuned) - {m.id}
      // The next launch of the same Model finds the result of this one, in memory and on disk.
      ensures pin.None? && r.Launched? ==> Hits(tuned, m, host.fingerprint) && tuned[m.id].flags == r.flags
      ensures old(Synced()) ==> Synced()
      ensures old(Fresh(w)) && Obeys(host, w, m) ==> Fresh(w)
      ensures old(Fresh(w)) && Obeys(host, w, m) && pin.None? ==>
                match SearchFor(m, w.fits(host.fingerprint, m.digest))
                case Best(f) => r.Launched? && r.flags == f
                case _ => !r.Launched?
    {
      hide Search, Ladder, RunBound, Searched, Heeded, host.CancelStays, host.Valid, host.Answers, host.Unhurried;
      if pin.Some? {
        r := LaunchVerbatim(m, pin.value, w);
        return;
      }
      if m.id in tuned {
        if Hits(tuned, m, host.fingerprint) {
          if Fresh(w) && Obeys(host, w, m) {
            HitIsSearch(w, m, host.fingerprint, tuned[m.id]);
          }
          r := LaunchVerbatim(m, tuned[m.id].flags, w);
          return;
        }
        tuned := tuned - {m.id};
        Save();
      }
      r := Tune(m, w.fits(host.fingerprint, m.digest));
    }

    /** One launch, with exactly these flags. */
    ghost predicate Verbatim(f: Flags, from: nat, r: Outcome)
      reads host
    {
      && |host.log| == from + 1 && host.log[from].flags == f
      && (if r.Launched? then r.flags == f && host.log[from].answer.Comes? else r.LaunchFailed? && !host.log[from].answer.Comes?)
    }

    method LaunchVerbatim(m: Model, f: Flags, ghost w: World) returns (r: Outcome)
      requires host.Valid()
      modifies host`launches, host`unstopped, host`log
      ensures host.Valid() && Verbatim(f, |old(host.log)|, r)
      ensures r.Launched? ==> r.process !in old(host.unstopped) && host.unstopped == old(host.unstopped) + {r.process}
      ensures !r.Launched? ==> host.unstopped == old(host.unstopped)
      ensures Obeys(host, w, m) ==> (r.Launched? <==> w.fits(host.fingerprint, m.digest)(f))
    {
      var a := host.LaunchConfig(m, f);
      r := if a.Ran? then Launched(a.process, f) else LaunchFailed;
    }

    /** The entries in memory are of this hardware, and the file holds them and no others. */
    ghost predicate Synced()
      reads this
    {
      && (forall id | id in tuned :: tuned[id].fingerprint == host.fingerprint)
      && (cachePath != "" ==> file == Some(CacheFile(host.fingerprint, tuned)) || (file.None? && tuned == map[]))
    }

    /** Every entry, in memory and on disk, is what a search for its own key returns. */
    ghost predicate Fresh(w: World)
      reads this
    {
      AllFresh(w, tuned) && (file.Some? ==> AllFresh(w, file.value.entries))
    }

    /** `loadTuningCache`, in whatever order the entries come: exactly the entries of this
        fingerprint, from a file of this fingerprint; any other file is removed. */
    method LoadCache(ghost w: World)
      requires tuned == map[]
      modifies this`tuned, this`file
      ensures tuned == if cachePath == "" then map[] else Loadable(old(file), host.fingerprint)
      ensures file == if cachePath != "" && old(file).Some? && old(file).value.fingerprint != host.fingerprint then None else old(file)
      ensures old(Fresh(w)) ==> Fresh(w)
    {
      if cachePath == "" || file.None? {
        return;
      }
      if file.value.fingerprint != host.fingerprint {
        file := None;
        return;
      }
      var entries := file.value.entries;
      var rest := entries.Keys;
      while rest != {}
        invariant rest <= entries.Keys
        invariant file == old(file)
        invariant tuned == map id | id in entries && id !in rest && entries[id].fingerprint == host.fingerprint :: entries[id]
        decreases rest
      {
        var id :| id in rest;
        if entries[id].fingerprint == host.fingerprint {
          tuned := tuned[id := entries[id]];
        }
        rest := rest - {id};
      }
    }

    method Reset(id: string, ghost w: World)
      modifies this`tuned, this`file
      ensures tuned == old(tuned) - {id}
      ensures file == if cachePath == "" then old(file) else Some(CacheFile(host.fingerprint, tuned))
      ensures old(Synced()) ==> Synced()
      ensures old(Fresh(w)) ==> Fresh(w)
    {
      tuned := tuned - {id};
      Save();
    }

    method ResetAll(ghost w: World)
      modifies this`tuned, this`file
      ensures tuned == map[] && file == if cachePath == "" then old(file) else None
      ensures old(Synced()) ==> Synced()
      ensures old(Fresh(w)) ==> Fresh(w)
    {
      tuned := map[];
      if cachePath != "" {
        file := None;
      }
    }
  }

  /** What launches come up, as a function of fingerprint and digest, and the block count of
      the file behind a digest. */
  datatype World = World(fits: (string, string) -> Oracle, blocks: string -> uint64)

  /** The host answers for `m` as the world says, and the budget is enough for any search of it.
      The search of the file behind the digest has the same top as that of `m`, and an end. */
  ghost predicate Obeys(host: Host, w: World, m: Model) {
    && host.Answers(m, w.fits(host.fingerprint, m.digest)) && host.Unhurried() && host.budget > 2 * RunBound(m)
    && MaxOffload(m.blockCount) == MaxOffload(w.blocks(m.digest)) && !SearchFor(m, w.fits(host.fingerprint, m.digest)).Endless?
  }

  predicate Hits(tuned: map<string, Entry>, m: Model, fingerprint: string) {
    && m.id in tuned
    && tuned[m.id].fingerprint == fingerprint && tuned[m.id].digest == m.digest
    && tuned[m.id].requestedCtx == RequestedCtx(m.contextLength) && tuned[m.id].kvCacheType == "f16"
  }

  ghost predicate EntryFresh(w: World, e: Entry) {
    Search(w.fits(e.fingerprint, e.digest), Ladder(e.requestedCtx), MaxOffload(w.blocks(e.digest))) == Best(e.flags)
  }

  ghost predicate AllFresh(w: World, entries: map<string, Entry>) {
    forall id | id in entries :: EntryFresh(w, entries[id])
  }

  lemma {:induction false} SearchFits(fits: Oracle, ladder: seq<nat>, maxOffload: uint64)
    ensures var r := Search(fits, ladder, maxOffload); r.Best? ==> fits(r.value)
  {
    if ladder != [] {
      FoundFits(fits, ladder[0], maxOffload);
      if SearchRung(fits, ladder[0], maxOffload).Nothing? {
        SearchFits(fits, ladder[1..], maxOffload);
      }
    }
  }

  lemma HitIsSearch(w: World, m: Model, fingerprint: string, e: Entry)
    requires EntryFresh(w, e) && e.fingerprint == fingerprint && e.digest == m.digest
    requires e.requestedCtx == RequestedCtx(m.contextLength) && MaxOffload(m.blockCount) == MaxOffload(w.blocks(m.digest))
    ensures SearchFor(m, w.fits(fingerprint, m.digest)) == Best(e.flags) && w.fits(fingerprint, m.digest)(e.flags)
  {
    SearchFits(w.fits(fingerprint, m.digest), Ladder(e.requestedCtx), MaxOffload(m.blockCount));
  }

  /** The entries of a cache file that may be used on this hardware. */
  function Loadable(file: Option<CacheFile>, fingerprint: string): map<string, Entry> {
    if file.None? || file.value.fingerprint != fingerprint then map[]
    else map id | id in file.value.entries && file.value.entries[id].fingerprint == fingerprint :: file.value.entries[id]
  }

  function Everything(): Oracle {
    (f: Flags) => true
  }

  /** The block count bounds the search and is not part of the key. The digest covers identifier,
      path and size, so a file rewritten in place at the same size hits the old entry, and that
      is harmless exactly if the top of the search stayed the same; hence the last condition
      of `Obeys`. */
  lemma KeyOmitsBlockCount(fingerprint: string, m1: Model, m2: Model)
    requires m1.id == m2.id && m1.digest == m2.digest && m1.contextLength == m2.contextLength
    ensures forall f: Flags :: Hits(map[m1.id := EntryFor(m1, fingerprint, f)], m2, fingerprint)
    ensures (forall fits: Oracle :: SearchFor(m1, fits) == SearchFor(m2, fits)) <==> MaxOffload(m1.blockCount) == MaxOffload(m2.blockCount)
  {
    LadderShape(RequestedCtx(m1.contextLength));
    if MaxOffload(m1.blockCount) != MaxOffload(m2.blockCount) {
      assert SearchFor(m1, Everything()) != SearchFor(m2, Everything());
    }
  }

  // ----- The fallback as a cache entry

  /** The fallback is recorded under the key of the search, so later launches hit it, although
      where everything fits no search returns it. */
  lemma FallbackIsKept(m: Model, fingerprint: string)
    ensures Hits(map[m.id := EntryFor(m, fingerprint, FallbackFlags(m))], m, fingerprint)
    ensures SearchFor(m, Everything()) != Best(FallbackFlags(m))
  {
    LadderShape(RequestedCtx(m.contextLength));
  }

  /** A search has no end because of some rung, and found nothing on the rungs above it. */
  lemma {:induction false} EndlessAt(fits: Oracle, ladder: seq<nat>, maxOffload: uint64) returns (c: nat)
    requires Descending(ladder) && Search(fits, ladder, maxOffload).Endless?
    ensures c in ladder && SearchRung(fits, c, maxOffload).Endless?
    ensures forall d | d in ladder && d > c :: SearchRung(fits, d, maxOffload).Nothing?
  {
    hide SearchRung;
    if SearchRung(fits, ladder[0], maxOffload).Endless? {
      return ladder[0];
    }
    c := EndlessAt(fits, ladder[1..], maxOffload);
    assert forall d | d in ladder :: d == ladder[0] || d in ladder[1..];
  }

  lemma {:induction false} HugeTop(fits: Oracle, ladder: seq<nat>, maxOffload: uint64)
    requires maxOffload > TWO63
    ensures var r := Search(fits, ladder, maxOffload); r.Best? ==> r.value.offload == maxOffload
  {
    HighRange(maxOffload);
    if ladder != [] {
      HugeTop(fits, ladder[1..], maxOffload);
    }
  }

  /** Where nothing else fits, the fallback is the best there is. */
  ghost predicate OnlyFallbackFits(m: Model, fits: Oracle) {
    var f := FallbackFlags(m);
    && fits(f) && !fits(Flags(f.ctxLen, 1))
    && forall c | c in Ladder(RequestedCtx(m.contextLength)) && c > f.ctxLen :: !fits(Flags(c, 0))
  }

  lemma OnlyFallbackBest(m: Model, fits: Oracle)
    requires DownClosed(fits)
    ensures var ladder, top := Ladder(RequestedCtx(m.contextLength)), MaxOffload(m.blockCount);
            IsBest(fits, ladder, top, Best(FallbackFlags(m))) <==> OnlyFallbackFits(m, fits)
  {
    FallbackInSpace(m);
    hide Ladder;
    var f, top := FallbackFlags(m), MaxOffload(m.blockCount);
    if IsBest(fits, Ladder(RequestedCtx(m.contextLength)), top, Best(f)) {
      assert !fits(Flags(f.ctxLen, 1));
    }
  }

  lemma OnlyFallbackEnds(m: Model, fits: Oracle)
    requires DownClosed(fits) && OnlyFallbackFits(m, fits) && MaxOffload(m.blockCount) <= TWO63
    ensures !SearchFor(m, fits).Endless?
  {
    var ladder, top, f := Ladder(RequestedCtx(m.contextLength)), MaxOffload(m.blockCount), FallbackFlags(m);
    LadderShape(RequestedCtx(m.contextLength));
    FallbackInSpace(m);
    hide Ladder, SearchRung, Search;
    if Search(fits, ladder, top).Endless? {
      var c := EndlessAt(fits, ladder, top);
      EndlessExactlyWhen(fits, c, top);
      assert fits(Flags(c, 0)) && fits(Flags(c, 1));
      assert c < f.ctxLen;
      RungBest(fits, f.ctxLen, top);
    }
  }

  /** A recorded fallback agrees with a fresh search exactly when the block count is at most 2^63,
      nothing fits on the rungs above the fallback, and nothing more than the fallback on its own. */
  lemma FallbackAgreesExactlyWhen(m: Model, fits: Oracle)
    requires DownClosed(fits)
    ensures SearchFor(m, fits) == Best(FallbackFlags(m)) <==> MaxOffload(m.blockCount) <= TWO63 && OnlyFallbackFits(m, fits)
  {
    var ladder, top := Ladder(RequestedCtx(m.contextLength)), MaxOffload(m.blockCount);
    LadderShape(RequestedCtx(m.contextLength));
    OnlyFallbackBest(m, fits);
    hide Ladder, Search, IsBest, OnlyFallbackFits;
    if top > TWO63 {
      HugeTop(fits, ladder, top);
    } else {
      SearchOptimal(fits, ladder, top);
      if OnlyFallbackFits(m, fits) {
        OnlyFallbackEnds(m, fits);
        BestIsUnique(fits, ladder, top, SearchFor(m, fits), Best(FallbackFlags(m)));
      }
    }
  }

  function FallbackFlags(m: Model): Flags {
    var ctxLen := RequestedCtx(m.contextLength);
    Flags(if ctxLen < 2048 then ctxLen else 2048, 0)
  }

  /** The result of a fresh search for a Model. */
  function SearchFor(m: Model, fits: Oracle): Sought<Flags> {
    Search(fits, Ladder(RequestedCtx(m.contextLength)), MaxOffload(m.blockCount))
  }

  /** The largest configuration, with which every search begins. */
  function TopFlags(m: Model): Flags {
    Flags(RequestedCtx(m.contextLength), MaxOffload(m.blockCount))
  }

  lemma TopOfLadder(m: Model)
    ensures var ladder := Ladder(RequestedCtx(m.contextLength)); ladder != [] && ladder[0] == TopFlags(m).ctxLen
    ensures MaxOffload(m.blockCount) > 0
  {
    LadderShape(RequestedCtx(m.contextLength));
  }

  /** A run ends as the search does; if the search has no end, neither has the run. */
  predicate EndsAs(sought: Sought<Flags>, r: Outcome) {
    match sought
    case Best(f) => r.Launched? && r.flags == f
    case Nothing => r.Unservable?
    case Endless => false
  }

  /** The flags that a tuning run may end with, the fallback included. */
  predicate InSpace(m: Model, f: Flags) {
    f.ctxLen in Ladder(RequestedCtx(m.contextLength)) && f.offload <= MaxOffload(m.blockCount)
  }

  function RunBound(m: Model): nat {
    ProbeBound(|Ladder(RequestedCtx(m.contextLength))|, MaxOffload(m.blockCount))
  }

  /** The fallback is the largest rung up to 2048, with no offload. */
  lemma FallbackInSpace(m: Model)
    ensures InSpace(m, FallbackFlags(m)) && FallbackFlags(m).offload == 0 && FallbackFlags(m).ctxLen <= 2048
    ensures forall c | c in Ladder(RequestedCtx(m.contextLength)) && c <= 2048 :: c <= FallbackFlags(m).ctxLen
  {
    LadderShape(RequestedCtx(m.contextLength));
    assert STEPS[4] == 2048;
  }

  lemma SearchTurns(fits: Oracle, ladder: seq<nat>, i: nat, maxOffload: uint64)
    requires i < |ladder|
    ensures Search(fits, ladder[i..], maxOffload)
         == match SearchRung(fits, ladder[i], maxOffload)
            case Best(b) => Best(Flags(ladder[i], b))
            case Nothing => Search(fits, ladder[i + 1..], maxOffload)
            case Endless => Endless
  {
    assert ladder[i..][1..] == ladder[i + 1..];
  }

  lemma SearchEnds(fits: Oracle, ladder: seq<nat>, maxOffload: uint64)
    ensures Search(fits, ladder[|ladder|..], maxOffload).Nothing?
    ensures ladder[0..] == ladder
  {
  }

  /** What the loop comes to from here, overflown or not. */
  function LoopFrom(fits: nat -> bool, low: int, high: int): Sought<nat> {
    if low < 0 then Endless else Bisect(fits, low, high)
  }

  lemma RangeLeft(low: int, high: int)
    requires low <= high
    ensures 0 <= low ==> Digits(high + 1 - low) > 0
  {
  }

  /** What is known between two turns of the bisection, whatever the answers: before `low` overflows,
      the best so far came up, and one more than `high` ran out of memory. */
  ghost predicate Bracketed(log: seq<Probe>, ctxLen: nat, maxOffload: uint64, from: nat, low: int, high: int, found: bool, best: nat) {
    && (maxOffload > TWO63 ==> low == 0 && high < 0)
    && (0 <= low || (maxOffload == TWO63 && low <= high && Overflown(low, high)))
    && (0 <= low ==> (found <==> low > 0))
    && (0 <= low && found ==> best == low - 1 && SeenIn(log, from, Flags(ctxLen, low - 1), true))
    && (0 <= low && maxOffload <= TWO63 ==> low <= high + 1 <= maxOffload && SeenIn(log, from, Flags(ctxLen, high + 1), false))
  }

  lemma StillBracketed(log: seq<Probe>, log': seq<Probe>, ctxLen: nat, maxOffload: uint64, from: nat, low: int, high: int,
                       found: bool, best: nat)
    requires Bracketed(log, ctxLen, maxOffload, from, low, high, found, best)
    requires |log| <= |log'| && log'[..|log|] == log
    ensures Bracketed(log', ctxLen, maxOffload, from, low, high, found, best)
  {
    if low > 0 {
      StillSeen(log, log', from, Flags(ctxLen, low - 1), true);
    }
    if maxOffload <= TWO63 && 0 <= low {
      StillSeen(log, log', from, Flags(ctxLen, high + 1), false);
    }
    hide SeenIn, Overflown;
  }

  lemma Narrows(log: seq<Probe>, ctxLen: nat, maxOffload: uint64, from: nat, low: int, high: int, found: bool, best: nat, fit: bool)
    requires Bracketed(log, ctxLen, maxOffload, from, low, high, found, best) && low <= high
    requires SeenIn(log, from, Flags(ctxLen, AsUint(Mid(low, high))), fit)
    ensures var mid := Mid(low, high);
            if fit then Bracketed(log, ctxLen, maxOffload, from, Wrap(mid + 1), high, true, AsUint(mid)) && (low < 0 ==> Wrap(mid + 1) < 0)
            else Bracketed(log, ctxLen, maxOffload, from, low, Wrap(mid - 1), found, best)
  {
    SpanInRange(log, ctxLen, maxOffload, from, low, high, found, best);
    NextSpan(low, high);
    hide SeenIn, Overflown, Wrap, Mid, AsUint, Middle;
  }

  lemma SpanInRange(log: seq<Probe>, ctxLen: nat, maxOffload: uint64, from: nat, low: int, high: int, found: bool, best: nat)
    requires Bracketed(log, ctxLen, maxOffload, from, low, high, found, best) && low <= high
    ensures (0 <= low <= high <= MAX_INT) || Overflown(low, high)
  {
    hide SeenIn, Overflown;
  }

  /** A turn narrows the range and does not change what the loop comes to. */
  lemma LoopNarrows(fits: Oracle, ctxLen: nat, low: int, high: int)
    requires (0 <= low <= high <= MAX_INT) || Overflown(low, high)
    ensures var g, mid := FitsAt(fits, ctxLen), Mid(low, high);
            var up, down := Wrap(mid + 1), Wrap(mid - 1);
            && (if fits(Flags(ctxLen, AsUint(mid))) then LoopFrom(g, up, high) == LoopFrom(g, low, high)
                else LoopFrom(g, low, down) == LoopFrom(g, low, high))
            && (0 <= low && 0 <= up ==> high + 1 >= up && Digits(high + 1 - up) + 1 <= Digits(high + 1 - low))
            && (0 <= low ==> down + 1 >= low && Digits(down + 1 - low) + 1 <= Digits(high + 1 - low))
  {
    NextSpan(low, high);
    if 0 <= low {
      HalvingDigits(low, high);
      BisectTurns(FitsAt(fits, ctxLen), low, high);
      FitsAtIs(fits, ctxLen, Mid(low, high));
    }
    hide Overflown, Wrap, Mid, AsUint, Middle, Digits, Bisect, FitsAt;
  }

  lemma BisectStarts(fits: nat -> bool, maxOffload: uint64)
    ensures LoopFrom(fits, 0, High(maxOffload)) == Bisect(fits, 0, High(maxOffload))
  {
  }

  lemma OverflownIsEndless(fits: nat -> bool, low: int, high: int)
    ensures low < 0 ==> LoopFrom(fits, low, high) == Endless
  {
  }

  lemma LoopEnds(fits: nat -> bool, low: int, high: int)
    requires low > high
    ensures 0 <= low ==> LoopFrom(fits, low, high) == if low == 0 then Nothing else Best(low - 1)
  {
  }

  lemma FitsAtIs(fits: Oracle, ctxLen: nat, offload: nat)
    ensures FitsAt(fits, ctxLen)(offload) == fits(Flags(ctxLen, offload))
  {
  }

  /** What the bisection of an oracle finds does come up. */
  lemma FoundFits(fits: Oracle, ctxLen: nat, maxOffload: uint64)
    ensures var r := Bisect(FitsAt(fits, ctxLen), 0, High(maxOffload)); r.Best? ==> fits(Flags(ctxLen, r.value))
  {
    HighRange(maxOffload);
    hide High;
    if High(maxOffload) >= -1 {
      BisectBrackets(FitsAt(fits, ctxLen), 0, High(maxOffload));
    }
  }
}
