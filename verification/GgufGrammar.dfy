/** The headers that the parser accepts, written down as a grammar: every header of the grammar is
    read back in full, and nothing else is accepted. */
module GgufGrammar {
  import opened Options
  import opened GgufBytes
  import opened GgufReader
  import opened GgufLaws
  import opened GgufWriter

  // ----- Values and how they are spelled

  /** A value as it stands in a file: numbers as words, truth values as any byte, arrays with the
      type code of their elements. */
  datatype Tree =
    | Word(kind: Kind, word: nat)
    | Truth(b: byte)
    | Characters(s: Bytes)
    | Sequence(code: nat, elems: seq<Tree>)

  function CodeOf(t: Tree): nat {
    match t
    case Word(k, _) => Code(k)
    case Truth(_) => 7
    case Characters(_) => 8
    case Sequence(_, _) => 9
  }

  /** Lengths take four bytes in version 1 and eight from version 2 on. */
  function LengthBytes(n: nat, v1: bool): Bytes {
    LittleEndian(n, if v1 then 4 else 8)
  }

  function SpellString(s: Bytes, v1: bool): Bytes {
    LengthBytes(|s|, v1) + s
  }

  function Spell(t: Tree, v1: bool): Bytes
    decreases t
  {
    match t
    case Word(k, n) => LittleEndian(n, Width(k))
    case Truth(b) => [b]
    case Characters(s) => SpellString(s, v1)
    case Sequence(code, elems) => LittleEndian(code, 4) + LengthBytes(|elems|, v1) + SpellAll(elems, v1)
  }

  function SpellAll(elems: seq<Tree>, v1: bool): Bytes
    decreases elems
  {
    if elems == [] then [] else Spell(elems[0], v1) + SpellAll(elems[1..], v1)
  }

  /** The value that is spelled; an array has the values of its elements, in order. */
  function Meaning(t: Tree): Value
    decreases t
  {
    match t
    case Word(k, n) => Num(k, if IsSigned(k) && n >= Pow256(Width(k)) / 2 then n - Pow256(Width(k)) else n)
    case Truth(b) => Flag(b != 0)
    case Characters(s) => Text(s)
    case Sequence(_, elems) => List(seq(|elems|, i requires 0 <= i < |elems| => Meaning(elems[i])))
  }

  function Meanings(elems: seq<Tree>): seq<Value> {
    seq(|elems|, i requires 0 <= i < |elems| => Meaning(elems[i]))
  }

  /** Elements have the announced type, and everything keeps the limits; `depth` arrays are around. */
  predicate WellFormed(t: Tree, depth: nat)
    decreases t
  {
    match t
    case Word(k, n) => n < Pow256(Width(k))
    case Truth(_) => true
    case Characters(s) => |s| <= MAX_STRING
    case Sequence(code, elems) =>
      && depth < MAX_DEPTH && |elems| <= MAX_ARRAY && code < 0x1_0000_0000
      && forall i | 0 <= i < |elems| :: CodeOf(elems[i]) == code && WellFormed(elems[i], depth + 1)
  }

  predicate ElemsFit(elems: seq<Tree>, code: nat, depth: nat) {
    forall i | 0 <= i < |elems| :: CodeOf(elems[i]) == code && WellFormed(elems[i], depth)
  }

  // ----- What is spelled is read

  lemma LengthParses(d: Bytes, pos: nat, n: nat, v1: bool)
    requires n <= MAX_STRING && Holds(d, pos, LengthBytes(n, v1))
    ensures ReadLength(d, pos, v1) == Ok(n, pos + |LengthBytes(n, v1)|)
  {
    Widths();
    NumberParses(d, pos, n, if v1 then 4 else 8);
  }

  lemma StringReads(d: Bytes, pos: nat, s: Bytes, v1: bool)
    requires |s| <= MAX_STRING && Holds(d, pos, SpellString(s, v1))
    ensures ReadString(d, pos, v1) == Ok(s, pos + |SpellString(s, v1)|)
  {
    hide ReadLength, LittleEndian;
    HoldsParts(d, pos, LengthBytes(|s|, v1), s);
    LengthParses(d, pos, |s|, v1);
  }

  lemma WordReads(d: Bytes, pos: nat, k: Kind, n: nat, v1: bool, depth: nat)
    requires depth <= MAX_DEPTH && n < Pow256(Width(k)) && Holds(d, pos, LittleEndian(n, Width(k)))
    ensures ReadValue(d, pos, Code(k), v1, depth) == Ok(Meaning(Word(k, n)), pos + Width(k))
  {
    hide ReadNumber, LittleEndian, Holds, Pow256;
    KindCodes(k);
    NumberParses(d, pos, n, Width(k));
    WordMeans(k, n);
    hide Decoded, Meaning;
  }

  lemma WordMeans(k: Kind, n: nat)
    requires n < Pow256(Width(k))
    ensures Decoded(k, n) == Meaning(Word(k, n))
  {
  }

  lemma TruthReads(d: Bytes, pos: nat, b: byte, v1: bool, depth: nat)
    requires depth <= MAX_DEPTH && Holds(d, pos, [b])
    ensures ReadValue(d, pos, 7, v1, depth) == Ok(Flag(b != 0), pos + 1)
  {
    assert FromLittleEndian([b]) == b + 256 * FromLittleEndian([b][1..]);
  }

  lemma CharactersRead(d: Bytes, pos: nat, s: Bytes, v1: bool, depth: nat)
    requires depth <= MAX_DEPTH && |s| <= MAX_STRING && Holds(d, pos, SpellString(s, v1))
    ensures ReadValue(d, pos, 8, v1, depth) == Ok(Text(s), pos + |SpellString(s, v1)|)
  {
    StringReads(d, pos, s, v1);
    hide ReadString, SpellString;
  }

  lemma {:induction false} TreeReads(d: Bytes, pos: nat, t: Tree, v1: bool, depth: nat)
    requires depth <= MAX_DEPTH && WellFormed(t, depth) && Holds(d, pos, Spell(t, v1))
    ensures ReadValue(d, pos, CodeOf(t), v1, depth) == Ok(Meaning(t), pos + |Spell(t, v1)|)
    decreases t
  {
    match t
    case Word(k, n) => WordReads(d, pos, k, n, v1, depth);
    case Truth(b) => TruthReads(d, pos, b, v1, depth);
    case Characters(s) => CharactersRead(d, pos, s, v1, depth);
    case Sequence(code, elems) =>
      var p := pos + 4 + |LengthBytes(|elems|, v1)|;
      SequenceHolds(d, pos, code, elems, v1);
      ElemsRead(d, p, elems, code, v1, depth + 1, []);
      SequenceReads(d, pos, code, elems, v1, depth);
  }

  lemma SequenceHolds(d: Bytes, pos: nat, code: nat, elems: seq<Tree>, v1: bool)
    requires Holds(d, pos, Spell(Sequence(code, elems), v1))
    ensures Holds(d, pos, LittleEndian(code, 4)) && Holds(d, pos + 4, LengthBytes(|elems|, v1))
    ensures Holds(d, pos + 4 + |LengthBytes(|elems|, v1)|, SpellAll(elems, v1))
  {
    hide Holds, LittleEndian, SpellAll;
    HoldsParts(d, pos, LittleEndian(code, 4) + LengthBytes(|elems|, v1), SpellAll(elems, v1));
    HoldsParts(d, pos, LittleEndian(code, 4), LengthBytes(|elems|, v1));
  }

  lemma SequenceReads(d: Bytes, pos: nat, code: nat, elems: seq<Tree>, v1: bool, depth: nat)
    requires depth < MAX_DEPTH && |elems| <= MAX_ARRAY && code < 0x1_0000_0000
    requires Holds(d, pos, LittleEndian(code, 4)) && Holds(d, pos + 4, LengthBytes(|elems|, v1))
    requires var p := pos + 4 + |LengthBytes(|elems|, v1)|;
             ReadElems(d, p, code, v1, depth + 1, |elems|, []) == Ok([] + Meanings(elems), p + |SpellAll(elems, v1)|)
    ensures ReadValue(d, pos, 9, v1, depth) == Ok(Meaning(Sequence(code, elems)), pos + |Spell(Sequence(code, elems), v1)|)
  {
    hide ReadValue, ReadNumber, ReadLength, ReadElems, LittleEndian, Holds, SpellAll, Pow256;
    Widths();
    NumberParses(d, pos, code, 4);
    LengthParses(d, pos + 4, |elems|, v1);
    ArrayIs(d, pos, code, |elems|, pos + 4 + |LengthBytes(|elems|, v1)|, v1, depth);
    assert [] + Meanings(elems) == Meanings(elems);
  }

  /** An array whose type code and length were read goes on with its elements. */
  lemma ArrayIs(d: Bytes, pos: nat, code: nat, n: nat, next: nat, v1: bool, depth: nat)
    requires depth < MAX_DEPTH && n <= MAX_ARRAY
    requires ReadNumber(d, pos, 4) == Ok(code, pos + 4) && ReadLength(d, pos + 4, v1) == Ok(n, next)
    ensures var e := ReadElems(d, next, code, v1, depth + 1, n, []);
            e.Ok? ==> ReadValue(d, pos, 9, v1, depth) == Ok(List(e.value), e.next)
  {
    hide ReadNumber, ReadLength, ReadElems;
  }

  lemma ElemsAre(d: Bytes, pos: nat, code: nat, v1: bool, depth: nat, n: nat, done: seq<Value>, v: Value, next: nat)
    requires depth <= MAX_DEPTH && n > 0 && ReadValue(d, pos, code, v1, depth) == Ok(v, next)
    ensures ReadElems(d, pos, code, v1, depth, n, done) == ReadElems(d, next, code, v1, depth, n - 1, done + [v])
  {
    hide ReadValue;
  }

  lemma MeaningsCons(done: seq<Value>, elems: seq<Tree>)
    requires elems != []
    ensures done + Meanings(elems) == done + [Meaning(elems[0])] + Meanings(elems[1..])
  {
    hide Meaning;
  }

  lemma {:induction false} ElemsRead(d: Bytes, pos: nat, elems: seq<Tree>, code: nat, v1: bool, depth: nat, done: seq<Value>)
    requires depth <= MAX_DEPTH && ElemsFit(elems, code, depth) && Holds(d, pos, SpellAll(elems, v1))
    ensures ReadElems(d, pos, code, v1, depth, |elems|, done) == Ok(done + Meanings(elems), pos + |SpellAll(elems, v1)|)
    decreases elems
  {
    if elems == [] {
      assert done + Meanings(elems) == done;
    } else {
      HoldsParts(d, pos, Spell(elems[0], v1), SpellAll(elems[1..], v1));
      hide Holds, Spell, WellFormed, Meaning, Meanings, ReadValue, ReadElems;
      TreeReads(d, pos, elems[0], v1, depth);
      ElemsAre(d, pos, code, v1, depth, |elems|, done, Meaning(elems[0]), pos + |Spell(elems[0], v1)|);
      ElemsRead(d, pos + |Spell(elems[0], v1)|, elems[1..], code, v1, depth, done + [Meaning(elems[0])]);
      MeaningsCons(done, elems);
    }
  }

  // ----- What is read was spelled

  lemma NumberWas(d: Bytes, pos: nat, w: nat)
    requires ReadNumber(d, pos, w).Ok?
    ensures var r := ReadNumber(d, pos, w);
            r.next == pos + w <= |d| && d[pos..r.next] == LittleEndian(r.value, w) && r.value < Pow256(w)
  {
    BytesRoundTrip(d[pos..pos + w]);
    NumberRange(d[pos..pos + w]);
  }

  lemma Joined(d: Bytes, i: nat, j: nat, k: nat)
    requires i <= j <= k <= |d|
    ensures d[i..k] == d[i..j] + d[j..k]
  {
  }

  lemma StringWas(d: Bytes, pos: nat, v1: bool)
    requires ReadString(d, pos, v1).Ok?
    ensures var r := ReadString(d, pos, v1);
            pos <= r.next <= |d| && d[pos..r.next] == SpellString(r.value, v1) && |r.value| <= MAX_STRING
  {
    hide ReadNumber, LittleEndian;
    var n := ReadLength(d, pos, v1);
    NumberWas(d, pos, if v1 then 4 else 8);
    var next := n.next + n.value;
    assert ReadString(d, pos, v1) == Ok(d[n.next..next], next);
    assert |d[n.next..next]| == n.value;
    Joined(d, pos, n.next, next);
  }

  lemma KindIs(t: nat)
    requires KindOf(t).Some?
    ensures Code(KindOf(t).value) == t
  {
  }

  /** Every accepted value is spelled by some tree of the grammar, and means that tree. */
  lemma {:induction false} TreeWas(d: Bytes, pos: nat, t: nat, v1: bool, depth: nat) returns (tree: Tree)
    requires depth <= MAX_DEPTH && ReadValue(d, pos, t, v1, depth).Ok?
    ensures var r := ReadValue(d, pos, t, v1, depth);
            && pos <= r.next <= |d| && d[pos..r.next] == Spell(tree, v1)
            && CodeOf(tree) == t && WellFormed(tree, depth) && Meaning(tree) == r.value
    decreases MAX_DEPTH - depth, 0
  {
    ValueAdvances(d, pos, t, v1, depth);
    if KindOf(t).Some? {
      tree := WordWas(d, pos, t, v1, depth);
    } else if t == TYPE_BOOL {
      tree := TruthWas(d, pos, v1, depth);
    } else if t == TYPE_STRING {
      StringWas(d, pos, v1);
      hide ReadString, SpellString;
      tree := Characters(ReadString(d, pos, v1).value);
    } else {
      var e := ReadNumber(d, pos, 4);
      var n := ReadLength(d, e.next, v1);
      var elems := ElemsWere(d, n.next, e.value, v1, depth + 1, n.value, []);
      tree := Sequence(e.value, elems);
      SequenceWas(d, pos, v1, depth, elems);
    }
  }

  lemma WordWas(d: Bytes, pos: nat, t: nat, v1: bool, depth: nat) returns (tree: Tree)
    requires depth <= MAX_DEPTH && ReadValue(d, pos, t, v1, depth).Ok? && KindOf(t).Some?
    ensures var r := ReadValue(d, pos, t, v1, depth);
            && pos <= r.next <= |d| && d[pos..r.next] == Spell(tree, v1)
            && CodeOf(tree) == t && WellFormed(tree, depth) && Meaning(tree) == r.value
  {
    var k := KindOf(t).value;
    var n := ReadNumber(d, pos, Width(k));
    KindIs(t);
    NumberWas(d, pos, Width(k));
    WordMeans(k, n.value);
    hide ReadNumber, LittleEndian, Decoded, Pow256, Code, Width, KindOf;
    tree := Word(k, n.value);
  }

  lemma TruthWas(d: Bytes, pos: nat, v1: bool, depth: nat) returns (tree: Tree)
    requires depth <= MAX_DEPTH && ReadValue(d, pos, 7, v1, depth).Ok?
    ensures var r := ReadValue(d, pos, 7, v1, depth);
            && pos <= r.next <= |d| && d[pos..r.next] == Spell(tree, v1)
            && CodeOf(tree) == 7 && WellFormed(tree, depth) && Meaning(tree) == r.value
  {
    var b := d[pos];
    assert d[pos..pos + 1] == [b];
    assert FromLittleEndian([b]) == b + 256 * FromLittleEndian([b][1..]);
    tree := Truth(b);
  }

  lemma SequenceWas(d: Bytes, pos: nat, v1: bool, depth: nat, elems: seq<Tree>)
    requires depth < MAX_DEPTH && ReadValue(d, pos, 9, v1, depth).Ok?
    requires ReadNumber(d, pos, 4).Ok? && ReadLength(d, ReadNumber(d, pos, 4).next, v1).Ok?
    requires var r, e := ReadValue(d, pos, 9, v1, depth), ReadNumber(d, pos, 4);
             var n := ReadLength(d, e.next, v1);
             && n.next <= r.next <= |d| && d[n.next..r.next] == SpellAll(elems, v1) && |elems| == n.value
             && ElemsFit(elems, e.value, depth + 1) && r.value == List(Meanings(elems)) && n.value <= MAX_ARRAY
    ensures var r, tree := ReadValue(d, pos, 9, v1, depth), Sequence(ReadNumber(d, pos, 4).value, elems);
            && d[pos..r.next] == Spell(tree, v1) && WellFormed(tree, depth) && Meaning(tree) == r.value
  {
    var r, e := ReadValue(d, pos, 9, v1, depth), ReadNumber(d, pos, 4);
    var n := ReadLength(d, e.next, v1);
    Widths();
    NumberWas(d, pos, 4);
    NumberWas(d, e.next, if v1 then 4 else 8);
    Joined(d, pos, e.next, n.next);
    Joined(d, pos, n.next, r.next);
    hide ReadNumber, ReadValue, LittleEndian, SpellAll;
    assert Meaning(Sequence(e.value, elems)) == List(Meanings(elems));
  }

  lemma {:induction false} ElemsWere(d: Bytes, pos: nat, t: nat, v1: bool, depth: nat, n: nat, done: seq<Value>) returns (elems: seq<Tree>)
    requires depth <= MAX_DEPTH && pos <= |d| && ReadElems(d, pos, t, v1, depth, n, done).Ok?
    ensures var r := ReadElems(d, pos, t, v1, depth, n, done);
            && pos <= r.next <= |d| && d[pos..r.next] == SpellAll(elems, v1)
            && |elems| == n && ElemsFit(elems, t, depth) && r.value == done + Meanings(elems)
    decreases MAX_DEPTH - depth, n + 1
  {
    if n == 0 {
      elems := [];
      assert done + Meanings([]) == done;
    } else {
      hide Spell, WellFormed, Meaning, ReadValue;
      var v := ReadValue(d, pos, t, v1, depth);
      var first := TreeWas(d, pos, t, v1, depth);
      var rest := ElemsWere(d, v.next, t, v1, depth, n - 1, done + [v.value]);
      elems := [first] + rest;
      assert elems[1..] == rest;
      Joined(d, pos, v.next, ReadElems(d, pos, t, v1, depth, n, done).next);
      MeaningsCons(done, elems);
      hide Meanings;
    }
  }

  // ----- Headers

  datatype Pair = Pair(key: Bytes, value: Tree)

  datatype Head = Head(version: nat, tensors: nat, pairs: seq<Pair>)

  function SpellPair(p: Pair, v1: bool): Bytes {
    SpellString(p.key, v1) + (LittleEndian(CodeOf(p.value), 4) + Spell(p.value, v1))
  }

  function SpellPairs(pairs: seq<Pair>, v1: bool): Bytes {
    if pairs == [] then [] else SpellPair(pairs[0], v1) + SpellPairs(pairs[1..], v1)
  }

  /** The four letters, the version, the number of tensors, the number of pairs, and the pairs. */
  function SpellHead(h: Head): Bytes {
    var v1 := h.version == 1;
    [0x47, 0x47, 0x55, 0x46]
    + (LittleEndian(h.version, 4) + (LengthBytes(h.tensors, v1) + (LengthBytes(|h.pairs|, v1) + SpellPairs(h.pairs, v1))))
  }

  predicate PairFits(p: Pair) {
    |p.key| <= MAX_STRING && WellFormed(p.value, 0)
  }

  predicate HeadFits(h: Head) {
    && (h.version == 1 || h.version == 2 || h.version == 3)
    && h.tensors < Pow256(if h.version == 1 then 4 else 8) && |h.pairs| <= MAX_PAIRS
    && forall i | 0 <= i < |h.pairs| :: PairFits(h.pairs[i])
  }

  /** The map holds the keys that occur, each with its last value. */
  ghost predicate LastWins(kv: map<Bytes, Value>, pairs: seq<Pair>) {
    && (forall k :: k in kv <==> exists i :: 0 <= i < |pairs| && pairs[i].key == k)
    && forall i | 0 <= i < |pairs| && (forall j | i < j < |pairs| :: pairs[j].key != pairs[i].key) ::
         kv[pairs[i].key] == Meaning(pairs[i].value)
  }

  function Collect(pairs: seq<Pair>, kv: map<Bytes, Value>): map<Bytes, Value> {
    if pairs == [] then kv else Collect(pairs[1..], kv[pairs[0].key := Meaning(pairs[0].value)])
  }

  lemma {:induction false} CollectKeeps(pairs: seq<Pair>, kv: map<Bytes, Value>, k: Bytes)
    ensures var r := Collect(pairs, kv);
            && (k in r <==> k in kv || exists i :: 0 <= i < |pairs| && pairs[i].key == k)
            && ((forall i | 0 <= i < |pairs| :: pairs[i].key != k) && k in kv ==> r[k] == kv[k])
  {
    hide Meaning;
    if pairs != [] {
      CollectKeeps(pairs[1..], kv[pairs[0].key := Meaning(pairs[0].value)], k);
      assert forall i | 0 < i < |pairs| :: pairs[i] == pairs[1..][i - 1];
    }
  }

  lemma {:induction false} CollectAt(pairs: seq<Pair>, kv: map<Bytes, Value>, i: nat)
    requires i < |pairs| && forall j | i < j < |pairs| :: pairs[j].key != pairs[i].key
    ensures pairs[i].key in Collect(pairs, kv) && Collect(pairs, kv)[pairs[i].key] == Meaning(pairs[i].value)
    decreases i
  {
    hide Meaning;
    var next := kv[pairs[0].key := Meaning(pairs[0].value)];
    if i == 0 {
      CollectKeeps(pairs[1..], next, pairs[0].key);
    } else {
      CollectAt(pairs[1..], next, i - 1);
    }
  }

  lemma CollectLast(pairs: seq<Pair>)
    ensures LastWins(Collect(pairs, map[]), pairs)
  {
    hide Meaning;
    forall k
      ensures k in Collect(pairs, map[]) <==> exists i :: 0 <= i < |pairs| && pairs[i].key == k
    {
      CollectKeeps(pairs, map[], k);
    }
    forall i | 0 <= i < |pairs| && (forall j | i < j < |pairs| :: pairs[j].key != pairs[i].key)
      ensures Collect(pairs, map[])[pairs[i].key] == Meaning(pairs[i].value)
    {
      CollectAt(pairs, map[], i);
    }
  }

  lemma CodeSmall(t: Tree, depth: nat)
    ensures CodeOf(t) < Pow256(4)
  {
    Widths();
  }

  lemma PairReads(d: Bytes, pos: nat, p: Pair, v1: bool)
    requires PairFits(p) && Holds(d, pos, SpellPair(p, v1))
    ensures ReadPair(d, pos, v1) == Ok((p.key, Meaning(p.value)), pos + |SpellPair(p, v1)|)
  {
    hide ReadString, ReadNumber, ReadValue, LittleEndian, Spell, SpellString, Holds, CodeOf, WellFormed, Pow256, Meaning;
    var q := pos + |SpellString(p.key, v1)|;
    CodeSmall(p.value, 0);
    HoldsParts(d, pos, SpellString(p.key, v1), LittleEndian(CodeOf(p.value), 4) + Spell(p.value, v1));
    HoldsParts(d, q, LittleEndian(CodeOf(p.value), 4), Spell(p.value, v1));
    StringReads(d, pos, p.key, v1);
    NumberParses(d, q, CodeOf(p.value), 4);
    TreeReads(d, q + 4, p.value, v1, 0);
  }

  lemma {:induction false} PairsRead(d: Bytes, pos: nat, pairs: seq<Pair>, v1: bool, kv: map<Bytes, Value>)
    requires (forall i | 0 <= i < |pairs| :: PairFits(pairs[i])) && Holds(d, pos, SpellPairs(pairs, v1))
    ensures ReadPairs(d, pos, v1, |pairs|, kv) == Ok(Collect(pairs, kv), pos + |SpellPairs(pairs, v1)|)
    decreases pairs
  {
    hide ReadPair, SpellPair, Holds, PairFits, Meaning;
    if pairs != [] {
      HoldsParts(d, pos, SpellPair(pairs[0], v1), SpellPairs(pairs[1..], v1));
      PairReads(d, pos, pairs[0], v1);
      PairsRead(d, pos + |SpellPair(pairs[0], v1)|, pairs[1..], v1, kv[pairs[0].key := Meaning(pairs[0].value)]);
    }
  }

  lemma CountsRead(d: Bytes, pos: nat, tensors: nat, pairs: nat, rest: Bytes, v1: bool)
    requires tensors < Pow256(if v1 then 4 else 8) && pairs <= MAX_PAIRS
    requires Holds(d, pos, LengthBytes(tensors, v1) + (LengthBytes(pairs, v1) + rest))
    ensures var p := pos + |LengthBytes(tensors, v1)| + |LengthBytes(pairs, v1)|;
            ReadCounts(d, pos, v1) == Ok((tensors, pairs), p) && Holds(d, p, rest)
  {
    hide ReadNumber, LittleEndian, Holds;
    Widths();
    HoldsParts(d, pos, LengthBytes(tensors, v1), LengthBytes(pairs, v1) + rest);
    HoldsParts(d, pos + |LengthBytes(tensors, v1)|, LengthBytes(pairs, v1), rest);
    NumberParses(d, pos, tensors, if v1 then 4 else 8);
    LengthParses(d, pos + |LengthBytes(tensors, v1)|, pairs, v1);
    hide Pow256;
  }

  /** Every header of the grammar is read back in full, whatever follows it. */
  lemma HeadReads(d: Bytes, h: Head)
    requires HeadFits(h) && Holds(d, 0, SpellHead(h))
    ensures ReadHeader(d) == Ok(Header(h.version, h.tensors, |h.pairs|, Collect(h.pairs, map[])), |SpellHead(h)|)
    ensures LastWins(Collect(h.pairs, map[]), h.pairs)
  {
    CollectLast(h.pairs);
    hide LastWins, Collect, Meaning, ReadCounts, ReadNumber, ReadPairs, LittleEndian, Holds, SpellPairs, PairFits;
    var v1 := h.version == 1;
    var counts := LengthBytes(h.tensors, v1) + (LengthBytes(|h.pairs|, v1) + SpellPairs(h.pairs, v1));
    Widths();
    HoldsParts(d, 0, MAGIC, LittleEndian(h.version, 4) + counts);
    HoldsParts(d, 4, LittleEndian(h.version, 4), counts);
    NumberParses(d, 4, h.version, 4);
    CountsRead(d, 8, h.tensors, |h.pairs|, SpellPairs(h.pairs, v1), v1);
    hide Pow256;
    PairsRead(d, 8 + |LengthBytes(h.tensors, v1)| + |LengthBytes(|h.pairs|, v1)|, h.pairs, v1, map[]);
    HoldsStart(d, MAGIC);
  }

  lemma HoldsStart(d: Bytes, p: Bytes)
    requires Holds(d, 0, p)
    ensures |d| >= |p| && d[..|p|] == p
  {
    assert d[..|p|] == d[0..0 + |p|];
  }

  // ----- And nothing else is

  lemma PairWas(d: Bytes, pos: nat, v1: bool) returns (p: Pair)
    requires ReadPair(d, pos, v1).Ok?
    ensures var r := ReadPair(d, pos, v1);
            && pos <= r.next <= |d| && d[pos..r.next] == SpellPair(p, v1) && PairFits(p)
            && r.value == (p.key, Meaning(p.value))
  {
    hide ReadString, ReadNumber, ReadValue, LittleEndian, Spell, SpellString, CodeOf, WellFormed, Meaning;
    var key := ReadString(d, pos, v1);
    var t := ReadNumber(d, key.next, 4);
    StringWas(d, pos, v1);
    NumberWas(d, key.next, 4);
    var tree := TreeWas(d, t.next, t.value, v1, 0);
    p := Pair(key.value, tree);
    Joined(d, key.next, t.next, ReadPair(d, pos, v1).next);
    Joined(d, pos, key.next, ReadPair(d, pos, v1).next);
  }

  lemma {:induction false} PairsWere(d: Bytes, pos: nat, v1: bool, n: nat, kv: map<Bytes, Value>) returns (pairs: seq<Pair>)
    requires pos <= |d| && ReadPairs(d, pos, v1, n, kv).Ok?
    ensures var r := ReadPairs(d, pos, v1, n, kv);
            && pos <= r.next <= |d| && d[pos..r.next] == SpellPairs(pairs, v1)
            && |pairs| == n && (forall i | 0 <= i < n :: PairFits(pairs[i])) && r.value == Collect(pairs, kv)
    decreases n
  {
    hide ReadPair, SpellPair, PairFits, Meaning;
    if n == 0 {
      pairs := [];
    } else {
      var p := ReadPair(d, pos, v1);
      var first := PairWas(d, pos, v1);
      var rest := PairsWere(d, p.next, v1, n - 1, kv[p.value.0 := p.value.1]);
      pairs := [first] + rest;
      assert pairs[1..] == rest;
      Joined(d, pos, p.next, ReadPairs(d, pos, v1, n, kv).next);
    }
  }

  lemma CountsWere(d: Bytes, pos: nat, v1: bool)
    requires ReadCounts(d, pos, v1).Ok?
    ensures var r := ReadCounts(d, pos, v1);
            && pos <= r.next <= |d| && d[pos..r.next] == LengthBytes(r.value.0, v1) + LengthBytes(r.value.1, v1)
            && r.value.0 < Pow256(if v1 then 4 else 8)
  {
    var t := ReadLength(d, pos, v1);
    NumberWas(d, pos, if v1 then 4 else 8);
    NumberWas(d, t.next, if v1 then 4 else 8);
    Joined(d, pos, t.next, ReadCounts(d, pos, v1).next);
    hide ReadNumber, LittleEndian, Pow256;
  }

  lemma HeadWas(d: Bytes) returns (h: Head)
    requires ReadHeader(d).Ok?
    ensures HeadFits(h) && Holds(d, 0, SpellHead(h))
  {
    hide ReadNumber, ReadCounts, ReadPairs, LittleEndian, SpellPairs, PairFits, Pow256;
    var version := ReadNumber(d, 4, 4);
    var v1 := version.value == 1;
    var counts := ReadCounts(d, version.next, v1);
    NumberWas(d, 4, 4);
    CountsWere(d, version.next, v1);
    var pairs := PairsWere(d, counts.next, v1, counts.value.1, map[]);
    var next := ReadPairs(d, counts.next, v1, counts.value.1, map[]).next;
    h := Head(version.value, counts.value.0, pairs);
    Joined(d, version.next, counts.next, next);
    Joined(d, 4, version.next, next);
    Joined(d, 0, 4, next);
    Spelled(d, h, next);
  }

  lemma Spelled(d: Bytes, h: Head, next: nat)
    requires next <= |d| && 8 <= next && d[..4] == MAGIC
    requires d[0..next] == d[0..4] + (LittleEndian(h.version, 4)
                                      + (LengthBytes(h.tensors, h.version == 1) + LengthBytes(|h.pairs|, h.version == 1)
                                         + SpellPairs(h.pairs, h.version == 1)))
    ensures Holds(d, 0, SpellHead(h))
  {
    hide LittleEndian, SpellPairs;
    assert d[0..4] == d[..4];
    assert SpellHead(h) == d[0..next];
  }

  /** The parser accepts an input exactly if it begins with a header of the grammar; then it consumes
      that header and returns what it says. */
  lemma AcceptsGrammar(d: Bytes)
    ensures ReadHeader(d).Ok? <==> exists h :: HeadFits(h) && Holds(d, 0, SpellHead(h))
    ensures forall h | HeadFits(h) && Holds(d, 0, SpellHead(h)) ::
              var r := ReadHeader(d);
              && r.Ok? && r.next == |SpellHead(h)|
              && r.value.version == h.version && r.value.tensorCount == h.tensors && r.value.kvCount == |h.pairs|
              && LastWins(r.value.kv, h.pairs)
  {
    hide HeadFits, Holds, SpellHead, ReadHeader, LastWins, Collect;
    if ReadHeader(d).Ok? {
      var h := HeadWas(d);
      assert HeadFits(h) && Holds(d, 0, SpellHead(h));
    }
    forall h | HeadFits(h) && Holds(d, 0, SpellHead(h))
      ensures ReadHeader(d).Ok? && ReadHeader(d).next == |SpellHead(h)|
      ensures var r := ReadHeader(d);
              && r.value.version == h.version && r.value.tensorCount == h.tensors && r.value.kvCount == |h.pairs|
              && LastWins(r.value.kv, h.pairs)
    {
      HeadReads(d, h);
    }
  }
}
