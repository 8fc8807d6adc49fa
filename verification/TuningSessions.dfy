/** The tuning cache over whole histories of the daemon. */
module TuningSessions {
  import opened Options
  import opened TuningSearch
  import opened Tuning

  datatype Op = LaunchOp(m: Model, pin: Option<Flags>) | ResetOp(id: string) | ResetAllOp | RestartOp(fingerprint: string)

  /** The hardware in place when the history has come this far. */
  function FingerprintAfter(fingerprint: string, ops: seq<Op>): string
    decreases |ops|
  {
    if ops == [] then fingerprint
    else if ops[|ops| - 1].RestartOp? then ops[|ops| - 1].fingerprint
    else FingerprintAfter(fingerprint, ops[..|ops| - 1])
  }

  /** An unpinned launch that ended as a fresh search on that hardware would. */
  predicate AsSearched(w: World, fingerprint: string, op: Op, r: Outcome) {
    op.LaunchOp? && op.pin.None? ==>
      match SearchFor(op.m, w.fits(fingerprint, op.m.digest))
      case Best(f) => r.Launched? && r.flags == f
      case _ => !r.Launched?
  }

  /** The Model launched is described as the world has it, and a search for it has an end. */
  predicate Proper(w: World, fingerprint: string, op: Op) {
    op.LaunchOp? ==>
      && MaxOffload(op.m.blockCount) == MaxOffload(w.blocks(op.m.digest))
      && !SearchFor(op.m, w.fits(fingerprint, op.m.digest)).Endless?
  }

  /** Twice the launches that the largest search makes. */
  const AMPLE := 1042

  lemma AmpleIsEnough(m: Model)
    ensures 2 * RunBound(m) <= AMPLE
  {
    LadderShape(RequestedCtx(m.contextLength));
    ProbesAtMost(|Ladder(RequestedCtx(m.contextLength))|, MaxOffload(m.blockCount));
  }

  method NewHost(w: World, fingerprint: string, budget: nat) returns (h: Host)
    ensures fresh(h) && h.Valid() && h.fingerprint == fingerprint && h.Unhurried() && h.budget == budget
    ensures forall m: Model :: h.Answers(m, w.fits(fingerprint, m.digest))
  {
    h := new Host(fingerprint,
                  (n: nat, m: Model, f: Flags) => if w.fits(fingerprint, m.digest)(f) then Comes else Refused(true),
                  (n: nat) => Running, budget);
  }

  /** A daemon on hardware that obeys the world, with a cache that agrees with it. */
  ghost predicate Sound(w: World, s: Supervisor, fingerprint: string)
    reads s, s.host
  {
    && s.Synced() && s.host.Valid() && s.host.Unhurried() && s.host.budget > AMPLE && s.host.fingerprint == fingerprint && s.Fresh(w)
    && forall m: Model :: s.host.Answers(m, w.fits(fingerprint, m.digest))
  }

  predicate PinUsed(op: Op, r: Outcome) {
    op.LaunchOp? && op.pin.Some? && r.Launched? ==> r.flags == op.pin.value
  }

  /** What an operation makes of the entries. */
  function Remembered(before: map<string, Entry>, fingerprint: string, cachePath: string, was: string, op: Op, r: Outcome): map<string, Entry> {
    match op
    case LaunchOp(m, pin) =>
      if pin.Some? || Hits(before, m, fingerprint) then before
      else if r.Launched? then before[m.id := EntryFor(m, fingerprint, r.flags)]
      else before - {m.id}
    case ResetOp(id) => before - {id}
    case ResetAllOp => map[]
    case RestartOp(_) => if cachePath != "" && fingerprint == was then before else map[]
  }

  method Perform(w: World, s: Supervisor, op: Op, ghost fingerprint: string) returns (s': Supervisor, r: Outcome)
    requires Sound(w, s, fingerprint) && Proper(w, fingerprint, op)
    modifies s, s.host
    ensures Sound(w, s', if op.RestartOp? then op.fingerprint else fingerprint)
    ensures s' == s || (fresh(s') && fresh(s'.host))
    ensures AsSearched(w, fingerprint, op, r) && PinUsed(op, r)
    ensures s'.cachePath == s.cachePath && s'.tuned == Remembered(old(s.tuned), s'.host.fingerprint, s.cachePath, s.host.fingerprint, op, r)
  {
    s', r := s, Unservable;
    hide RunBound, Search, Ladder;
    match op
    case LaunchOp(m, pin) =>
      AmpleIsEnough(m);
      r := s.LaunchInstance(m, pin, w);
    case ResetOp(id) => s.Reset(id, w);
    case ResetAllOp => s.ResetAll(w);
    case RestartOp(fp) =>
      var host := NewHost(w, fp, s.host.budget);
      s' := Restart(s, host, w);
  }

  /** Any history of launches, resets and restarts, on hardware that may change between them:
      every unpinned launch ends exactly as a fresh search would, and every pinned one that
      succeeds uses its pin. */
  method Replay(w: World, cachePath: string, fingerprint: string, budget: nat, ops: seq<Op>) returns (outcomes: seq<Outcome>)
    requires budget > AMPLE
    requires forall k | 0 <= k < |ops| :: Proper(w, FingerprintAfter(fingerprint, ops[..k]), ops[k])
    ensures |outcomes| == |ops|
    ensures forall k | 0 <= k < |ops| ::
              AsSearched(w, FingerprintAfter(fingerprint, ops[..k]), ops[k], outcomes[k]) && PinUsed(ops[k], outcomes[k])
  {
    hide AsSearched, PinUsed, Proper, Sound, Remembered;
    outcomes := [];
    var host := NewHost(w, fingerprint, budget);
    var s := new Supervisor(host, cachePath, None);
    StartsSound(w, s, fingerprint);
    var k := 0;
    while k < |ops|
      invariant 0 <= k == |outcomes| <= |ops|
      invariant fresh(s) && fresh(s.host) && Sound(w, s, FingerprintAfter(fingerprint, ops[..k]))
      invariant forall j | 0 <= j < k ::
                  AsSearched(w, FingerprintAfter(fingerprint, ops[..j]), ops[j], outcomes[j]) && PinUsed(ops[j], outcomes[j])
    {
      var r;
      s, r := Perform(w, s, ops[k], FingerprintAfter(fingerprint, ops[..k]));
      assert ops[..k + 1][..k] == ops[..k];
      outcomes := outcomes + [r];
      k := k + 1;
    }
  }

  lemma StartsSound(w: World, s: Supervisor, fingerprint: string)
    requires s.tuned == map[] && s.file.None?
    requires s.host.Valid() && s.host.Unhurried() && s.host.budget > AMPLE && s.host.fingerprint == fingerprint
    requires forall m: Model :: s.host.Answers(m, w.fits(fingerprint, m.digest))
    ensures Sound(w, s, fingerprint)
  {
  }

  lemma AllLoadable(tuned: map<string, Entry>, fingerprint: string)
    requires forall id | id in tuned :: tuned[id].fingerprint == fingerprint
    ensures Loadable(Some(CacheFile(fingerprint, tuned)), fingerprint) == tuned
  {
  }

  /** A restart keeps nothing but the file. */
  method Restart(s: Supervisor, host: Host, ghost w: World) returns (s': Supervisor)
    requires s.Fresh(w)
    ensures fresh(s') && s'.host == host && s'.cachePath == s.cachePath && s'.Fresh(w) && unchanged(s)
    // Where there is a cache file and the hardware is the same, every entry survives, and otherwise none.
    ensures s.Synced() ==> s'.Synced()
    ensures s.Synced() ==> s'.tuned == if s.cachePath != "" && host.fingerprint == s.host.fingerprint then s.tuned else map[]
  {
    s' := new Supervisor(host, s.cachePath, s.file);
    s'.LoadCache(w);
    if s.Synced() {
      AllLoadable(s.tuned, s.host.fingerprint);
    }
    hide EntryFresh;
  }
}
