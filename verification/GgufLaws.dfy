/** What the parser guarantees for every input: it looks at nothing beyond what it consumes,
    and what it accepts is bounded. */
module GgufLaws {
  import opened Options
  import opened GgufBytes
  import opened GgufReader

  // ----- Progress

  lemma {:induction false} ValueAdvances(d: Bytes, pos: nat, t: nat, v1: bool, depth: nat)
    requires depth <= MAX_DEPTH
    ensures var r := ReadValue(d, pos, t, v1, depth); r.Ok? ==> pos < r.next <= |d|
    decreases MAX_DEPTH - depth, 0
  {
    if t == TYPE_ARRAY && depth < MAX_DEPTH && ReadValue(d, pos, t, v1, depth).Ok? {
      var e := ReadNumber(d, pos, 4);
      var n := ReadLength(d, e.next, v1);
      ElemsAdvance(d, n.next, e.value, v1, depth + 1, n.value, []);
    }
  }

  lemma {:induction false} ElemsAdvance(d: Bytes, pos: nat, t: nat, v1: bool, depth: nat, n: nat, done: seq<Value>)
    requires depth <= MAX_DEPTH && pos <= |d|
    ensures var r := ReadElems(d, pos, t, v1, depth, n, done); r.Ok? ==> pos <= r.next <= |d|
    decreases MAX_DEPTH - depth, n + 1
  {
    if n > 0 {
      ValueAdvances(d, pos, t, v1, depth);
      var v := ReadValue(d, pos, t, v1, depth);
      if v.Ok? {
        ElemsAdvance(d, v.next, t, v1, depth, n - 1, done + [v.value]);
      }
    }
  }

  lemma PairAdvances(d: Bytes, pos: nat, v1: bool)
    ensures var r := ReadPair(d, pos, v1); r.Ok? ==> pos < r.next <= |d|
  {
    var key := ReadString(d, pos, v1);
    if key.Ok? {
      var t := ReadNumber(d, key.next, 4);
      if t.Ok? {
        ValueAdvances(d, t.next, t.value, v1, 0);
      }
    }
  }

  lemma {:induction false} PairsAdvance(d: Bytes, pos: nat, v1: bool, n: nat, kv: map<Bytes, Value>)
    requires pos <= |d|
    ensures var r := ReadPairs(d, pos, v1, n, kv); r.Ok? ==> pos <= r.next <= |d|
    decreases n
  {
    hide ReadPair;
    if n > 0 {
      PairAdvances(d, pos, v1);
      var p := ReadPair(d, pos, v1);
      if p.Ok? {
        PairsAdvance(d, p.next, v1, n - 1, kv[p.value.0 := p.value.1]);
      }
    }
  }

  // ----- Nothing beyond the consumed bytes matters

  /** Two inputs agree on their first `n` bytes. */
  predicate Agree(d: Bytes, d': Bytes, n: nat) {
    n <= |d| && n <= |d'| && d[..n] == d'[..n]
  }

  lemma AgreeSlice(d: Bytes, d': Bytes, n: nat, i: nat, j: nat)
    requires Agree(d, d', n) && i <= j <= n
    ensures d[i..j] == d'[i..j]
  {
    assert d[i..j] == d[..n][i..j];
    assert d'[i..j] == d'[..n][i..j];
  }

  lemma NumberExtends(d: Bytes, d': Bytes, pos: nat, w: nat, n: nat)
    requires Agree(d, d', n) && ReadNumber(d, pos, w).Ok? && ReadNumber(d, pos, w).next <= n
    ensures ReadNumber(d', pos, w) == ReadNumber(d, pos, w)
  {
    AgreeSlice(d, d', n, pos, pos + w);
  }

  lemma StringExtends(d: Bytes, d': Bytes, pos: nat, v1: bool, n: nat)
    requires Agree(d, d', n) && ReadString(d, pos, v1).Ok? && ReadString(d, pos, v1).next <= n
    ensures ReadString(d', pos, v1) == ReadString(d, pos, v1)
  {
    var len := ReadLength(d, pos, v1);
    NumberExtends(d, d', pos, if v1 then 4 else 8, n);
    AgreeSlice(d, d', n, len.next, len.next + len.value);
  }

  lemma {:induction false} ValueExtends(d: Bytes, d': Bytes, pos: nat, t: nat, v1: bool, depth: nat, n: nat)
    requires depth <= MAX_DEPTH && Agree(d, d', n)
    requires ReadValue(d, pos, t, v1, depth).Ok? && ReadValue(d, pos, t, v1, depth).next <= n
    ensures ReadValue(d', pos, t, v1, depth) == ReadValue(d, pos, t, v1, depth)
    decreases MAX_DEPTH - depth, 0
  {
    if KindOf(t).Some? {
      NumberExtends(d, d', pos, Width(KindOf(t).value), n);
    } else if t == TYPE_BOOL {
      NumberExtends(d, d', pos, 1, n);
    } else if t == TYPE_STRING {
      StringExtends(d, d', pos, v1, n);
    } else {
      ArrayExtends(d, d', pos, v1, depth, n);
    }
  }

  lemma {:induction false} ArrayExtends(d: Bytes, d': Bytes, pos: nat, v1: bool, depth: nat, n: nat)
    requires depth <= MAX_DEPTH && Agree(d, d', n)
    requires ReadValue(d, pos, TYPE_ARRAY, v1, depth).Ok? && ReadValue(d, pos, TYPE_ARRAY, v1, depth).next <= n
    ensures ReadValue(d', pos, TYPE_ARRAY, v1, depth) == ReadValue(d, pos, TYPE_ARRAY, v1, depth)
    decreases MAX_DEPTH - depth, 0, 0
  {
    var e := ReadNumber(d, pos, 4);
    var len := ReadLength(d, e.next, v1);
    ElemsAdvance(d, len.next, e.value, v1, depth + 1, len.value, []);
    NumberExtends(d, d', pos, 4, n);
    NumberExtends(d, d', e.next, if v1 then 4 else 8, n);
    ElemsExtend(d, d', len.next, e.value, v1, depth + 1, len.value, [], n);
  }

  lemma {:induction false} ElemsExtend(
      d: Bytes, d': Bytes, pos: nat, t: nat, v1: bool, depth: nat, k: nat, done: seq<Value>, n: nat)
    requires depth <= MAX_DEPTH && Agree(d, d', n) && pos <= |d|
    requires ReadElems(d, pos, t, v1, depth, k, done).Ok? && ReadElems(d, pos, t, v1, depth, k, done).next <= n
    ensures ReadElems(d', pos, t, v1, depth, k, done) == ReadElems(d, pos, t, v1, depth, k, done)
    decreases MAX_DEPTH - depth, k + 1
  {
    if k > 0 {
      var v := ReadValue(d, pos, t, v1, depth);
      ValueAdvances(d, pos, t, v1, depth);
      ElemsAdvance(d, v.next, t, v1, depth, k - 1, done + [v.value]);
      ValueExtends(d, d', pos, t, v1, depth, n);
      ElemsExtend(d, d', v.next, t, v1, depth, k - 1, done + [v.value], n);
    }
  }

  lemma PairExtends(d: Bytes, d': Bytes, pos: nat, v1: bool, n: nat)
    requires Agree(d, d', n) && ReadPair(d, pos, v1).Ok? && ReadPair(d, pos, v1).next <= n
    ensures ReadPair(d', pos, v1) == ReadPair(d, pos, v1)
  {
    var key := ReadString(d, pos, v1);
    var t := ReadNumber(d, key.next, 4);
    ValueAdvances(d, t.next, t.value, v1, 0);
    StringExtends(d, d', pos, v1, n);
    NumberExtends(d, d', key.next, 4, n);
    ValueExtends(d, d', t.next, t.value, v1, 0, n);
  }

  lemma {:induction false} PairsExtend(d: Bytes, d': Bytes, pos: nat, v1: bool, k: nat, kv: map<Bytes, Value>, n: nat)
    requires Agree(d, d', n) && pos <= |d|
    requires ReadPairs(d, pos, v1, k, kv).Ok? && ReadPairs(d, pos, v1, k, kv).next <= n
    ensures ReadPairs(d', pos, v1, k, kv) == ReadPairs(d, pos, v1, k, kv)
    decreases k
  {
    hide ReadPair;
    if k > 0 {
      var p := ReadPair(d, pos, v1);
      PairAdvances(d, pos, v1);
      PairsAdvance(d, p.next, v1, k - 1, kv[p.value.0 := p.value.1]);
      PairExtends(d, d', pos, v1, n);
      PairsExtend(d, d', p.next, v1, k - 1, kv[p.value.0 := p.value.1], n);
    }
  }

  lemma CountsExtend(d: Bytes, d': Bytes, pos: nat, v1: bool, n: nat)
    requires Agree(d, d', n) && ReadCounts(d, pos, v1).Ok? && ReadCounts(d, pos, v1).next <= n
    ensures ReadCounts(d', pos, v1) == ReadCounts(d, pos, v1)
  {
    var w := if v1 then 4 else 8;
    NumberExtends(d, d', pos, w, n);
    NumberExtends(d, d', pos + w, w, n);
  }

  /** If a header is accepted after `n` bytes, then whatever follows those bytes, the same
      header is accepted after the same `n` bytes. */
  lemma HeaderExtends(d: Bytes, d': Bytes)
    requires ReadHeader(d).Ok? && Agree(d, d', ReadHeader(d).next)
    ensures ReadHeader(d') == ReadHeader(d)
  {
    var n := ReadHeader(d).next;
    var version := ReadNumber(d, 4, 4);
    var v1 := version.value == 1;
    var counts := ReadCounts(d, version.next, v1);
    PairsAdvance(d, counts.next, v1, counts.value.1, map[]);
    AgreeSlice(d, d', n, 0, 4);
    NumberExtends(d, d', 4, 4, n);
    CountsExtend(d, d', version.next, v1, n);
    PairsExtend(d, d', counts.next, v1, counts.value.1, map[], n);
  }

  lemma HeaderAdvances(d: Bytes)
    ensures var r := ReadHeader(d); r.Ok? ==> 0 < r.next <= |d|
  {
    var r := ReadHeader(d);
    if r.Ok? {
      var version := ReadNumber(d, 4, 4);
      var counts := ReadCounts(d, version.next, version.value == 1);
      PairsAdvance(d, counts.next, version.value == 1, counts.value.1, map[]);
    }
  }

  /** Every strict prefix of the consumed bytes is rejected. */
  lemma PrefixRejected(d: Bytes, k: nat)
    requires ReadHeader(d).Ok? && k < ReadHeader(d).next
    ensures k <= |d| && ReadHeader(d[..k]).Err?
  {
    HeaderAdvances(d);
    HeaderAdvances(d[..k]);
    if ReadHeader(d[..k]).Ok? {
      var n := ReadHeader(d[..k]).next;
      assert d[..k][..n] == d[..n];
      HeaderExtends(d[..k], d);
    }
  }

  // ----- Bounds

  /** How deep arrays nest in a value. */
  function Nesting(v: Value): nat {
    match v
    case List(elems) => 1 + NestingAll(elems)
    case _ => 0
  }

  function NestingAll(s: seq<Value>): nat {
    if s == [] then 0
    else
      var a, b := Nesting(s[0]), NestingAll(s[1..]);
      if a > b then a else b
  }

  /** The number of values inside a value, itself included. */
  function Nodes(v: Value): nat {
    match v
    case List(elems) => 1 + NodesAll(elems)
    case _ => 1
  }

  function NodesAll(s: seq<Value>): nat {
    if s == [] then 0 else Nodes(s[0]) + NodesAll(s[1..])
  }

  predicate WithinLimits(v: Value) {
    match v
    case Text(s) => |s| <= MAX_STRING
    case List(elems) => |elems| <= MAX_ARRAY && forall i | 0 <= i < |elems| :: WithinLimits(elems[i])
    case _ => true
  }

  lemma {:induction false} NestingAppend(s: seq<Value>, v: Value, bound: nat)
    requires NestingAll(s) <= bound && Nesting(v) <= bound
    ensures NestingAll(s + [v]) <= bound
  {
    if s == [] {
      assert [v][1..] == [];
    } else {
      assert (s + [v])[1..] == s[1..] + [v];
      NestingAppend(s[1..], v, bound);
    }
  }

  lemma {:induction false} NodesAppend(s: seq<Value>, v: Value)
    ensures NodesAll(s + [v]) == NodesAll(s) + Nodes(v)
  {
    if s == [] {
      assert [v][1..] == [];
    } else {
      assert (s + [v])[1..] == s[1..] + [v];
      NodesAppend(s[1..], v);
    }
  }

  /** An accepted value nests no deeper than the limit allows from here, keeps every length
      limit, and holds no more values than bytes were consumed for it. */
  lemma {:induction false} ValueBounded(d: Bytes, pos: nat, t: nat, v1: bool, depth: nat)
    requires depth <= MAX_DEPTH && ReadValue(d, pos, t, v1, depth).Ok?
    ensures var r := ReadValue(d, pos, t, v1, depth);
            Nesting(r.value) <= MAX_DEPTH - depth && WithinLimits(r.value) && Nodes(r.value) <= r.next - pos
    decreases MAX_DEPTH - depth, 0
  {
    ValueAdvances(d, pos, t, v1, depth);
    if t == TYPE_ARRAY {
      var e := ReadNumber(d, pos, 4);
      var n := ReadLength(d, e.next, v1);
      ElemsBounded(d, n.next, e.value, v1, depth + 1, n.value, []);
    }
  }

  lemma {:induction false} ElemsBounded(d: Bytes, pos: nat, t: nat, v1: bool, depth: nat, n: nat, done: seq<Value>)
    requires depth <= MAX_DEPTH && ReadElems(d, pos, t, v1, depth, n, done).Ok?
    requires NestingAll(done) <= MAX_DEPTH - depth && forall i | 0 <= i < |done| :: WithinLimits(done[i])
    ensures var r := ReadElems(d, pos, t, v1, depth, n, done);
            && |r.value| == |done| + n
            && NestingAll(r.value) <= MAX_DEPTH - depth && (forall i | 0 <= i < |r.value| :: WithinLimits(r.value[i]))
            && NodesAll(r.value) - NodesAll(done) <= r.next - pos
    decreases MAX_DEPTH - depth, n + 1
  {
    if n > 0 {
      var v := ReadValue(d, pos, t, v1, depth);
      ValueBounded(d, pos, t, v1, depth);
      NestingAppend(done, v.value, MAX_DEPTH - depth);
      NodesAppend(done, v.value);
      ElemsBounded(d, v.next, t, v1, depth, n - 1, done + [v.value]);
    }
  }

  /** Keys and values decoded while reading `n` pairs. */
  function PairNodes(d: Bytes, pos: nat, v1: bool, n: nat): nat
    decreases n
  {
    if n == 0 then 0
    else
      match ReadPair(d, pos, v1)
      case Err(_) => 0
      case Ok(pair, p) => 1 + Nodes(pair.1) + PairNodes(d, p, v1, n - 1)
  }

  lemma PairBounded(d: Bytes, pos: nat, v1: bool)
    requires ReadPair(d, pos, v1).Ok?
    ensures var r := ReadPair(d, pos, v1);
            && |r.value.0| <= MAX_STRING && Nesting(r.value.1) <= MAX_DEPTH && WithinLimits(r.value.1)
            && 1 + Nodes(r.value.1) <= r.next - pos
  {
    var key := ReadString(d, pos, v1);
    var t := ReadNumber(d, key.next, 4);
    ValueBounded(d, t.next, t.value, v1, 0);
  }

  ghost predicate PairsWithinLimits(kv: map<Bytes, Value>) {
    forall k | k in kv :: |k| <= MAX_STRING && Nesting(kv[k]) <= MAX_DEPTH && WithinLimits(kv[k])
  }

  lemma {:induction false} PairsBounded(d: Bytes, pos: nat, v1: bool, n: nat, kv: map<Bytes, Value>)
    requires ReadPairs(d, pos, v1, n, kv).Ok? && PairsWithinLimits(kv)
    ensures var r := ReadPairs(d, pos, v1, n, kv);
            PairsWithinLimits(r.value) && |r.value| <= |kv| + n && PairNodes(d, pos, v1, n) <= r.next - pos
    decreases n
  {
    hide ReadPair, Nesting, WithinLimits, Nodes;
    if n > 0 {
      var p := ReadPair(d, pos, v1);
      PairBounded(d, pos, v1);
      var next := kv[p.value.0 := p.value.1];
      assert next.Keys == kv.Keys + {p.value.0};
      assert |next.Keys| <= |kv.Keys| + 1;
      PairsBounded(d, p.next, v1, n - 1, next);
    }
  }

  lemma NoPairsWithinLimits()
    ensures PairsWithinLimits(map[])
  {
  }

  /** Where the pairs begin: after the magic bytes, the version and the two counts. */
  function PairsStart(version: nat): nat {
    if version == 1 then 16 else 24
  }

  /** Every accepted header keeps the limits, and parsing it decoded no more keys and values
      than it consumed bytes. */
  lemma HeaderBounded(d: Bytes)
    requires ReadHeader(d).Ok?
    ensures var r := ReadHeader(d);
            && PairsWithinLimits(r.value.kv) && |r.value.kv| <= r.value.kvCount <= MAX_PAIRS
            && PairNodes(d, PairsStart(r.value.version), r.value.version == 1, r.value.kvCount) <= r.next - PairsStart(r.value.version)
  {
    hide ReadPairs, PairNodes, PairsWithinLimits, FromLittleEndian;
    var version := ReadNumber(d, 4, 4);
    var counts := ReadCounts(d, version.next, version.value == 1);
    PairsAdvance(d, counts.next, version.value == 1, counts.value.1, map[]);
    assert PairsWithinLimits(map[]) by {
      NoPairsWithinLimits();
    }
    PairsBounded(d, counts.next, version.value == 1, counts.value.1, map[]);
  }

  // ----- Errors

  lemma {:induction false} PairsErrors(d: Bytes, pos: nat, v1: bool, n: nat, kv: map<Bytes, Value>)
    ensures var r := ReadPairs(d, pos, v1, n, kv); r.Err? ==> r.error == TooLarge || r.error == Corrupt
    decreases n
  {
    hide ReadString, ReadNumber, ReadValue;
    if n > 0 && ReadPair(d, pos, v1).Ok? {
      var p := ReadPair(d, pos, v1);
      PairsErrors(d, p.next, v1, n - 1, kv[p.value.0 := p.value.1]);
    }
  }

  /** An input is refused for its first four bytes, for its version, or as too large or corrupt; no
      plain read error gets out. */
  lemma HeaderErrors(d: Bytes)
    ensures var r := ReadHeader(d);
            && (r == Err(InvalidMagic) <==> |d| < 4 || d[..4] != [0x47, 0x47, 0x55, 0x46])
            && (r == Err(UnsupportedVersion) <==>
                  |d| >= 8 && d[..4] == [0x47, 0x47, 0x55, 0x46] && !(1 <= FromLittleEndian(d[4..8]) <= 3))
            && r != Err(Truncated)
  {
    hide ReadCounts, ReadPairs;
    if ReadNumber(d, 4, 4).Ok? {
      var v1 := ReadNumber(d, 4, 4).value == 1;
      CountsErrors(d, 8, v1);
      if ReadCounts(d, 8, v1).Ok? {
        PairsErrors(d, ReadCounts(d, 8, v1).next, v1, ReadCounts(d, 8, v1).value.1, map[]);
      }
    }
  }

  lemma CountsErrors(d: Bytes, pos: nat, v1: bool)
    ensures var r := ReadCounts(d, pos, v1); r.Err? ==> r.error == Corrupt
  {
  }
}
