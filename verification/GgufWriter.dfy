/** The GGUF header writer, and the proof that the parser inverts it. */
module GgufWriter {
  import opened Options
  import opened GgufBytes
  import opened GgufReader

  // ----- The writer as functions

  function Code(k: Kind): nat {
    match k
    case U8 => 0
    case I8 => 1
    case U16 => 2
    case I16 => 3
    case U32 => 4
    case I32 => 5
    case F32 => 6
    case U64 => 10
    case I64 => 11
    case F64 => 12
  }

  /** A value that a Go variable of its type can hold. */
  predicate InRange(v: Value) {
    match v
    case Num(k, n) =>
      if IsSigned(k) then -(Pow256(Width(k)) / 2) <= n < Pow256(Width(k)) / 2 else 0 <= n < Pow256(Width(k))
    case Text(s) => |s| < 0x8000_0000_0000_0000
    case GoInt(n) => -0x8000_0000_0000_0000 <= n < 0x8000_0000_0000_0000
    case GoUint(n) => 0 <= n < 0x1_0000_0000_0000_0000
    case _ => true
  }

  /** The writer has no case for arrays and panics on them. */
  predicate Encodable(v: Value) {
    !v.List? && InRange(v)
  }

  function TypeCode(v: Value): nat
    requires Encodable(v)
  {
    match v
    case Num(k, _) => Code(k)
    case Flag(_) => TYPE_BOOL
    case Text(_) => TYPE_STRING
    case GoInt(_) => Code(U32)
    case GoUint(_) => Code(U64)
  }

  function PrintString(s: Bytes): Bytes {
    LittleEndian(|s|, 8) + s
  }

  /** The word that holds a number, negative ones in two's complement. */
  function Word(k: Kind, n: int): nat
    requires InRange(Num(k, n))
  {
    if n < 0 then n + Pow256(Width(k)) else n
  }

  function Payload(v: Value): Bytes
    requires Encodable(v)
  {
    match v
    case Num(k, n) => LittleEndian(Word(k, n), Width(k))
    case Flag(b) => [if b then 1 else 0]
    case Text(s) => PrintString(s)
    case GoInt(n) => LittleEndian(n % 0x1_0000_0000, 4)
    case GoUint(n) => LittleEndian(n, 8)
  }

  function PrintValue(v: Value): Bytes
    requires Encodable(v)
  {
    LittleEndian(TypeCode(v), 4) + Payload(v)
  }

  function PrintPair(k: Bytes, v: Value): Bytes
    requires Encodable(v)
  {
    PrintString(k) + PrintValue(v)
  }

  predicate AllEncodable(kv: map<Bytes, Value>) {
    |kv| < 0x8000_0000_0000_0000 && forall k | k in kv :: |k| < 0x8000_0000_0000_0000 && Encodable(kv[k])
  }

  function PrintPairs(kv: map<Bytes, Value>, order: seq<Bytes>): Bytes
    requires AllEncodable(kv) && forall k | k in order :: k in kv
  {
    if order == [] then []
    else PrintPair(order[0], kv[order[0]]) + PrintPairs(kv, order[1..])
  }

  function PrintStart(kv: map<Bytes, Value>): Bytes {
    MAGIC + LittleEndian(3, 4) + LittleEndian(0, 8) + LittleEndian(|kv|, 8)
  }

  function PrintHeader(kv: map<Bytes, Value>, order: seq<Bytes>): Bytes
    requires AllEncodable(kv) && forall k | k in order :: k in kv
  {
    PrintStart(kv) + PrintPairs(kv, order)
  }

  /** The order in which a map is iterated is any enumeration of its keys. */
  ghost predicate Enumerates(order: seq<Bytes>, keys: set<Bytes>) {
    (forall k :: k in order <==> k in keys) && forall i, j | 0 <= i < j < |order| :: order[i] != order[j]
  }

  /** What becomes of a value on the way: machine integers get a width, the signed one the
      lower 32 bits as an unsigned number. */
  function Normal(v: Value): Value {
    match v
    case GoInt(n) => Num(U32, n % 0x1_0000_0000)
    case GoUint(n) => Num(U64, n)
    case _ => v
  }

  function NormalMap(kv: map<Bytes, Value>): map<Bytes, Value> {
    map k | k in kv :: Normal(kv[k])
  }

  // ----- Parsing what was printed

  predicate Holds(d: Bytes, pos: nat, p: Bytes) {
    pos + |p| <= |d| && d[pos..pos + |p|] == p
  }

  lemma HoldsParts(d: Bytes, pos: nat, p: Bytes, q: Bytes)
    requires Holds(d, pos, p + q)
    ensures Holds(d, pos, p) && Holds(d, pos + |p|, q)
  {
    assert d[pos..pos + |p|] == d[pos..pos + |p + q|][..|p|];
    assert d[pos + |p|..pos + |p| + |q|] == d[pos..pos + |p + q|][|p|..];
  }

  lemma NumberParses(d: Bytes, pos: nat, n: nat, w: nat)
    requires n < Pow256(w) && Holds(d, pos, LittleEndian(n, w))
    ensures ReadNumber(d, pos, w) == Ok(n, pos + w)
  {
    NumberRoundTrip(n, w);
  }

  lemma StringParses(d: Bytes, pos: nat, s: Bytes)
    requires |s| < 0x8000_0000_0000_0000 && Holds(d, pos, PrintString(s))
    ensures ReadString(d, pos, false) == if |s| <= MAX_STRING then Ok(s, pos + |PrintString(s)|) else Err(TooLarge)
  {
    Widths();
    HoldsParts(d, pos, LittleEndian(|s|, 8), s);
    NumberParses(d, pos, |s|, 8);
  }

  /** A value whose strings are not too long for the parser. */
  predicate Short(v: Value) {
    v.Text? ==> |v.s| <= MAX_STRING
  }

  lemma KindCodes(k: Kind)
    ensures KindOf(Code(k)) == Some(k) && Code(k) < 13
  {
  }

  lemma WordDecodes(k: Kind, n: int)
    requires InRange(Num(k, n))
    ensures Word(k, n) < Pow256(Width(k)) && Decoded(k, Word(k, n)) == Num(k, n)
  {
    Widths();
  }

  lemma NumParses(d: Bytes, pos: nat, k: Kind, n: int)
    requires InRange(Num(k, n)) && Holds(d, pos, LittleEndian(Word(k, n), Width(k)))
    ensures ReadValue(d, pos, Code(k), false, 0) == Ok(Num(k, n), pos + Width(k))
  {
    hide ReadNumber, Word, Decoded, LittleEndian, Holds, InRange;
    KindCodes(k);
    WordDecodes(k, n);
    NumberParses(d, pos, Word(k, n), Width(k));
  }

  lemma FlagParses(d: Bytes, pos: nat, b: bool)
    requires Holds(d, pos, [if b then 1 else 0])
    ensures ReadValue(d, pos, TYPE_BOOL, false, 0) == Ok(Flag(b), pos + 1)
  {
    var p: Bytes := [if b then 1 else 0];
    assert FromLittleEndian(p) == p[0] + 256 * FromLittleEndian(p[1..]);
  }

  lemma TextParses(d: Bytes, pos: nat, s: Bytes)
    requires |s| < 0x8000_0000_0000_0000 && Holds(d, pos, PrintString(s))
    ensures ReadValue(d, pos, TYPE_STRING, false, 0)
         == if |s| <= MAX_STRING then Ok(Text(s), pos + |PrintString(s)|) else Err(TooLarge)
  {
    hide ReadString, PrintString;
    StringParses(d, pos, s);
  }

  lemma ValueParses(d: Bytes, pos: nat, v: Value)
    requires Encodable(v) && Holds(d, pos, Payload(v))
    ensures ReadValue(d, pos, TypeCode(v), false, 0)
         == if Short(v) then Ok(Normal(v), pos + |Payload(v)|) else Err(TooLarge)
  {
    hide ReadValue, LittleEndian, Holds, PrintString, Pow256;
    Widths();
    match v
    case Num(k, n) => NumParses(d, pos, k, n);
    case Flag(b) => FlagParses(d, pos, b);
    case Text(s) => TextParses(d, pos, s);
    case GoInt(n) => NumParses(d, pos, U32, n % 0x1_0000_0000);
    case GoUint(n) => NumParses(d, pos, U64, n);
  }

  predicate ShortPair(k: Bytes, v: Value) {
    |k| <= MAX_STRING && Short(v)
  }

  lemma PairParses(d: Bytes, pos: nat, k: Bytes, v: Value)
    requires |k| < 0x8000_0000_0000_0000 && Encodable(v) && Holds(d, pos, PrintPair(k, v))
    ensures ReadPair(d, pos, false) == if ShortPair(k, v) then Ok((k, Normal(v)), pos + |PrintPair(k, v)|) else Err(TooLarge)
  {
    hide ReadString, ReadNumber, ReadValue, LittleEndian, Payload, TypeCode, Encodable, PrintString, Pow256, Normal;
    SmallCode(v);
    var p := pos + |PrintString(k)|;
    HoldsParts(d, pos, PrintString(k), PrintValue(v));
    HoldsParts(d, p, LittleEndian(TypeCode(v), 4), Payload(v));
    StringParses(d, pos, k);
    NumberParses(d, p, TypeCode(v), 4);
    ValueParses(d, p + 4, v);
  }

  lemma SmallCode(v: Value)
    requires Encodable(v)
    ensures TypeCode(v) < Pow256(4)
  {
    Widths();
  }

  predicate AllShort(kv: map<Bytes, Value>, order: seq<Bytes>)
    requires forall k | k in order :: k in kv
  {
    forall k | k in order :: ShortPair(k, kv[k])
  }

  lemma AllShortCons(kv: map<Bytes, Value>, order: seq<Bytes>)
    requires order != [] && forall k | k in order :: k in kv
    ensures forall k | k in order[1..] :: k in kv
    ensures AllShort(kv, order) <==> ShortPair(order[0], kv[order[0]]) && AllShort(kv, order[1..])
  {
    assert forall j :: j in order <==> j == order[0] || j in order[1..];
  }

  /** The map that reading the pairs in this order builds up from `acc`. */
  function Collected(kv: map<Bytes, Value>, order: seq<Bytes>, acc: map<Bytes, Value>): map<Bytes, Value>
    requires forall k | k in order :: k in kv
    decreases |order|
  {
    if order == [] then acc else Collected(kv, order[1..], acc[order[0] := Normal(kv[order[0]])])
  }

  lemma {:induction false} PairsParse(d: Bytes, pos: nat, kv: map<Bytes, Value>, order: seq<Bytes>, acc: map<Bytes, Value>)
    requires AllEncodable(kv) && (forall k | k in order :: k in kv) && Holds(d, pos, PrintPairs(kv, order))
    ensures ReadPairs(d, pos, false, |order|, acc)
         == if AllShort(kv, order) then Ok(Collected(kv, order, acc), pos + |PrintPairs(kv, order)|) else Err(TooLarge)
    decreases |order|
  {
    hide ReadPair, PrintPair, Encodable, ShortPair, Normal, Holds;
    if order != [] {
      var k := order[0];
      var v := kv[k];
      AllShortCons(kv, order);
      hide AllShort;
      HoldsParts(d, pos, PrintPair(k, v), PrintPairs(kv, order[1..]));
      PairParses(d, pos, k, v);
      PairsParse(d, pos + |PrintPair(k, v)|, kv, order[1..], acc[k := Normal(v)]);
    }
  }

  lemma {:induction false} CollectedAt(kv: map<Bytes, Value>, order: seq<Bytes>, acc: map<Bytes, Value>)
    requires forall k | k in order :: k in kv
    ensures var r := Collected(kv, order, acc);
            && (forall k :: k in r <==> k in acc || k in order)
            && forall k | k in r :: r[k] == if k in order then Normal(kv[k]) else acc[k]
    decreases |order|
  {
    if order != [] {
      assert forall j :: j in order <==> j == order[0] || j in order[1..];
      CollectedAt(kv, order[1..], acc[order[0] := Normal(kv[order[0]])]);
    }
  }

  lemma {:induction false} EnumerationLength(order: seq<Bytes>, keys: set<Bytes>)
    requires Enumerates(order, keys)
    ensures |order| == |keys|
    decreases |order|
  {
    if order == [] {
      assert keys == {};
    } else {
      assert forall k :: k in order <==> k == order[0] || k in order[1..];
      EnumerationLength(order[1..], keys - {order[0]});
    }
  }

  /** Everything fits the limits of the parser. */
  predicate Readable(kv: map<Bytes, Value>) {
    |kv| <= MAX_PAIRS && forall k | k in kv :: ShortPair(k, kv[k])
  }

  /** In whatever order the pairs were written and whatever bytes follow, the parser accepts
      the printed header exactly when it keeps the limits, and then it consumes exactly the
      printed bytes and returns the map that was written. */
  lemma RoundTrip(kv: map<Bytes, Value>, order: seq<Bytes>, tail: Bytes)
    requires AllEncodable(kv) && Enumerates(order, kv.Keys)
    ensures ReadHeader(PrintHeader(kv, order) + tail)
         == if Readable(kv) then Ok(Header(3, 0, |kv|, NormalMap(kv)), |PrintHeader(kv, order)|) else Err(TooLarge)
  {
    var d := PrintHeader(kv, order) + tail;
    hide PrintPairs, PrintStart, ReadPairs, ReadHeader, ReadCounts, ReadNumber, Collected, NormalMap, AllShort, Readable;
    hide AllEncodable, Enumerates, Holds;
    EnumerationLength(order, kv.Keys);
    EnumeratesIn(kv, order);
    HeldAfterStart(d, kv, order, tail);
    StartParses(d, kv, PrintPairs(kv, order) + tail);
    HeaderFollows(d, |kv|);
    PairsParse(d, 24, kv, order, map[]);
    CollectedAll(kv, order);
  }

  lemma HeaderFollows(d: Bytes, n: nat)
    requires |d| >= 4 && d[..4] == MAGIC && ReadNumber(d, 4, 4) == Ok(3, 8) && ReadCounts(d, 8, false) == Ok((0, n), 24)
    ensures var r := ReadPairs(d, 24, false, n, map[]);
            ReadHeader(d) == if n > MAX_PAIRS then Err(TooLarge)
                             else if r.Err? then Err(r.error)
                             else Ok(Header(3, 0, n, r.value), r.next)
  {
    hide ReadNumber, ReadCounts, ReadPairs;
  }

  lemma EnumeratesIn(kv: map<Bytes, Value>, order: seq<Bytes>)
    requires AllEncodable(kv) && Enumerates(order, kv.Keys) && |order| == |kv.Keys|
    ensures (forall k | k in order :: k in kv) && |kv| == |order| < 0x8000_0000_0000_0000
    ensures Readable(kv) <==> |kv| <= MAX_PAIRS && AllShort(kv, order)
    ensures |PrintHeader(kv, order)| == |PrintStart(kv)| + |PrintPairs(kv, order)|
  {
    hide ShortPair, PrintPairs;
  }

  lemma HeldAfterStart(d: Bytes, kv: map<Bytes, Value>, order: seq<Bytes>, tail: Bytes)
    requires AllEncodable(kv) && (forall k | k in order :: k in kv) && d == PrintHeader(kv, order) + tail
    ensures d == PrintStart(kv) + (PrintPairs(kv, order) + tail) && Holds(d, |PrintStart(kv)|, PrintPairs(kv, order))
  {
    hide PrintPairs, PrintStart, AllEncodable;
  }

  lemma CollectedAll(kv: map<Bytes, Value>, order: seq<Bytes>)
    requires Enumerates(order, kv.Keys)
    ensures Collected(kv, order, map[]) == NormalMap(kv)
  {
    hide Normal;
    CollectedAt(kv, order, map[]);
  }

  lemma StartParses(d: Bytes, kv: map<Bytes, Value>, rest: Bytes)
    requires |kv| < 0x8000_0000_0000_0000 && d == PrintStart(kv) + rest
    ensures |PrintStart(kv)| == 24 && |d| >= 4 && d[..4] == MAGIC && |kv| < 0x8000_0000_0000_0000
    ensures ReadNumber(d, 4, 4) == Ok(3, 8)
    ensures ReadCounts(d, 8, false) == Ok((0, |kv|), 24)
  {
    hide LittleEndian, ReadNumber, Pow256;
    Widths();
    var a, b, c := LittleEndian(3, 4), LittleEndian(0, 8), LittleEndian(|kv|, 8);
    assert Holds(d, 0, MAGIC + a + b + c);
    HoldsParts(d, 0, MAGIC + a + b, c);
    HoldsParts(d, 0, MAGIC + a, b);
    HoldsParts(d, 0, MAGIC, a);
    NumberParses(d, 4, 3, 4);
    NumberParses(d, 8, 0, 8);
    NumberParses(d, 16, |kv|, 8);
  }
}
