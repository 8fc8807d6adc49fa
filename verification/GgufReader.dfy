/** The GGUF header parser: as functions of the input and a position, and as the reader that
    advances through the input and fills the map and the arrays in loops. */
module GgufReader {
  import opened Options
  import opened GgufBytes

  const MAX_STRING := 16 * 1024 * 1024
  const MAX_ARRAY := 1_000_000
  const MAX_PAIRS := 100_000
  const MAX_DEPTH := 8

  datatype Kind = U8 | I8 | U16 | I16 | U32 | I32 | F32 | U64 | I64 | F64

  /** A value of the key-value section; a floating-point number is its bit pattern. `GoInt` and
      `GoUint` are the machine integers that only the writer accepts. */
  datatype Value =
    | Num(kind: Kind, n: int)
    | Flag(b: bool)
    | Text(s: Bytes)
    | List(elems: seq<Value>)
    | GoInt(n: int)
    | GoUint(n: int)

  /** `Truncated` is the plain read error that the layers above turn into `Corrupt`. */
  datatype Error = InvalidMagic | UnsupportedVersion | TooLarge | Corrupt | Truncated

  datatype Parse<+T> = Ok(value: T, next: nat) | Err(error: Error) {
    predicate IsFailure() { Err? }
    function PropagateFailure<U>(): Parse<U> requires Err? { Err(error) }
    function Extract(): (T, nat) requires Ok? { (value, next) }
  }

  // ----- Types

  const TYPE_BOOL := 7
  const TYPE_STRING := 8
  const TYPE_ARRAY := 9

  function KindOf(t: nat): Option<Kind> {
    match t
    case 0 => Some(U8)
    case 1 => Some(I8)
    case 2 => Some(U16)
    case 3 => Some(I16)
    case 4 => Some(U32)
    case 5 => Some(I32)
    case 6 => Some(F32)
    case 10 => Some(U64)
    case 11 => Some(I64)
    case 12 => Some(F64)
    case _ => None
  }

  function Width(k: Kind): nat {
    match k
    case U8 => 1
    case I8 => 1
    case U16 => 2
    case I16 => 2
    case U32 => 4
    case I32 => 4
    case F32 => 4
    case U64 => 8
    case I64 => 8
    case F64 => 8
  }

  predicate IsSigned(k: Kind) {
    k == I8 || k == I16 || k == I32 || k == I64
  }

  function Decoded(k: Kind, n: nat): Value {
    Num(k, if IsSigned(k) then ToSigned(n, Pow256(Width(k))) else n)
  }

  // ----- The parser as functions

  function ReadNumber(d: Bytes, pos: nat, w: nat): Parse<nat> {
    if pos + w <= |d| then Ok(FromLittleEndian(d[pos..pos + w]), pos + w) else Err(Truncated)
  }

  /** A length is four bytes wide in version 1 and eight from version 2 on. */
  function ReadLength(d: Bytes, pos: nat, v1: bool): Parse<nat> {
    ReadNumber(d, pos, if v1 then 4 else 8)
  }

  function ReadString(d: Bytes, pos: nat, v1: bool): Parse<Bytes> {
    var (n, p) :- ReadLength(d, pos, v1);
    if n > MAX_STRING then Err(TooLarge)
    else if p + n <= |d| then Ok(d[p..p + n], p + n)
    else Err(Truncated)
  }

  /** What an array turns an error inside it into. */
  function AsCorrupt<T>(r: Parse<T>): Parse<T> {
    if r.Err? then Err(Corrupt) else r
  }

  function ReadValue(d: Bytes, pos: nat, t: nat, v1: bool, depth: nat): Parse<Value>
    requires depth <= MAX_DEPTH
    decreases MAX_DEPTH - depth, 0
  {
    if KindOf(t).Some? then
      var (n, p) :- ReadNumber(d, pos, Width(KindOf(t).value));
      Ok(Decoded(KindOf(t).value, n), p)
    else if t == TYPE_BOOL then
      var (n, p) :- ReadNumber(d, pos, 1);
      Ok(Flag(n != 0), p)
    else if t == TYPE_STRING then
      var (s, p) :- ReadString(d, pos, v1);
      Ok(Text(s), p)
    else if t == TYPE_ARRAY then
      if depth >= MAX_DEPTH then Err(Corrupt)
      else
        var (e, p) :- AsCorrupt(ReadNumber(d, pos, 4));
        var (n, q) :- AsCorrupt(ReadLength(d, p, v1));
        if n > MAX_ARRAY then Err(TooLarge)
        else
          var (elems, next) :- ReadElems(d, q, e, v1, depth + 1, n, []);
          Ok(List(elems), next)
    else Err(Corrupt)
  }

  /** The remaining `n` elements, appended to `done`. */
  function ReadElems(d: Bytes, pos: nat, t: nat, v1: bool, depth: nat, n: nat, done: seq<Value>): Parse<seq<Value>>
    requires depth <= MAX_DEPTH
    decreases MAX_DEPTH - depth, n + 1
  {
    if n == 0 then Ok(done, pos)
    else
      var (v, p) :- AsCorrupt(ReadValue(d, pos, t, v1, depth));
      ReadElems(d, p, t, v1, depth, n - 1, done + [v])
  }

  /** What the header parser makes of an error in a key or a value. */
  function AtTop<T>(r: Parse<T>): Parse<T> {
    if r.Err? && r.error != TooLarge then Err(Corrupt) else r
  }

  /** One key and its value. */
  function ReadPair(d: Bytes, pos: nat, v1: bool): Parse<(Bytes, Value)> {
    var (key, p) :- AtTop(ReadString(d, pos, v1));
    var (t, q) :- AtTop(ReadNumber(d, p, 4));
    var (v, next) :- AtTop(ReadValue(d, q, t, v1, 0));
    Ok((key, v), next)
  }

  function ReadPairs(d: Bytes, pos: nat, v1: bool, n: nat, kv: map<Bytes, Value>): Parse<map<Bytes, Value>>
    decreases n
  {
    if n == 0 then Ok(kv, pos)
    else
      var (pair, p) :- ReadPair(d, pos, v1);
      ReadPairs(d, p, v1, n - 1, kv[pair.0 := pair.1])
  }

  datatype Header = Header(version: nat, tensorCount: nat, kvCount: nat, kv: map<Bytes, Value>)

  const MAGIC: Bytes := [71, 71, 85, 70]

  function ReadCounts(d: Bytes, pos: nat, v1: bool): Parse<(nat, nat)> {
    var (tensors, p) :- AtTop(ReadLength(d, pos, v1));
    var (pairs, q) :- AtTop(ReadLength(d, p, v1));
    Ok((tensors, pairs), q)
  }

  function ReadHeader(d: Bytes): Parse<Header> {
    if |d| < 4 || d[..4] != MAGIC then Err(InvalidMagic)
    else
      var (version, p) :- AtTop(ReadNumber(d, 4, 4));
      if version != 1 && version != 2 && version != 3 then Err(UnsupportedVersion)
      else
        var (counts, q) :- ReadCounts(d, p, version == 1);
        if counts.1 > MAX_PAIRS then Err(TooLarge)
        else
          var (kv, next) :- ReadPairs(d, q, version == 1, counts.1, map[]);
          Ok(Header(version, counts.0, counts.1, kv), next)
  }

  // ----- The parser as it runs

  datatype Result<+T> = Success(value: T) | Failure(error: Error)

  /** The reader ended a read as the function says: same value and position, or same error. */
  predicate Matches<T(==)>(r: Result<T>, pos: nat, p: Parse<T>) {
    match p
    case Ok(v, next) => r == Success(v) && pos == next
    case Err(e) => r == Failure(e)
  }

  class Reader {
    const data: Bytes
    var pos: nat

    constructor (data: Bytes)
      ensures this.data == data && pos == 0
    {
      this.data, pos := data, 0;
    }

    method Number(w: nat) returns (r: Result<nat>)
      modifies this
      ensures Matches(r, pos, ReadNumber(data, old(pos), w))
    {
      if pos + w > |data| {
        pos := if pos > |data| then pos else |data|;
        return Failure(Truncated);
      }
      r := Success(FromLittleEndian(data[pos..pos + w]));
      pos := pos + w;
    }

    method Length(v1: bool) returns (r: Result<nat>)
      modifies this
      ensures Matches(r, pos, ReadLength(data, old(pos), v1))
    {
      r := Number(if v1 then 4 else 8);
    }

    method String(v1: bool) returns (r: Result<Bytes>)
      modifies this
      ensures Matches(r, pos, ReadString(data, old(pos), v1))
    {
      var n := Length(v1);
      if n.Failure? {
        return Failure(n.error);
      }
      if n.value > MAX_STRING {
        return Failure(TooLarge);
      }
      if pos + n.value > |data| {
        return Failure(Truncated);
      }
      r := Success(data[pos..pos + n.value]);
      pos := pos + n.value;
    }

    method ReadAny(t: nat, v1: bool, depth: nat) returns (r: Result<Value>)
      requires depth <= MAX_DEPTH
      modifies this
      ensures Matches(r, pos, ReadValue(data, old(pos), t, v1, depth))
      decreases MAX_DEPTH - depth, 0
    {
      if KindOf(t).Some? {
        var n := Number(Width(KindOf(t).value));
        return if n.Failure? then Failure(n.error) else Success(Decoded(KindOf(t).value, n.value));
      } else if t == TYPE_BOOL {
        var n := Number(1);
        return if n.Failure? then Failure(n.error) else Success(Flag(n.value != 0));
      } else if t == TYPE_STRING {
        var s := String(v1);
        return if s.Failure? then Failure(s.error) else Success(Text(s.value));
      } else if t == TYPE_ARRAY {
        if depth >= MAX_DEPTH {
          return Failure(Corrupt);
        }
        var e := Number(4);
        if e.Failure? {
          return Failure(Corrupt);
        }
        var n := Length(v1);
        if n.Failure? {
          return Failure(Corrupt);
        }
        if n.value > MAX_ARRAY {
          return Failure(TooLarge);
        }
        var elems := Elements(e.value, v1, depth + 1, n.value);
        return if elems.Failure? then Failure(elems.error) else Success(List(elems.value));
      }
      return Failure(Corrupt);
    }

    /** The loop that fills an array. */
    method Elements(t: nat, v1: bool, depth: nat, count: nat) returns (r: Result<seq<Value>>)
      requires depth <= MAX_DEPTH
      modifies this
      ensures Matches(r, pos, ReadElems(data, old(pos), t, v1, depth, count, []))
      decreases MAX_DEPTH - depth, count + 1
    {
      var arr := [];
      var i := 0;
      while i < count
        invariant i <= count
        invariant ReadElems(data, old(pos), t, v1, depth, count, []) == ReadElems(data, pos, t, v1, depth, count - i, arr)
      {
        var v := ReadAny(t, v1, depth);
        if v.Failure? {
          return Failure(Corrupt);
        }
        arr := arr + [v.value];
        i := i + 1;
      }
      r := Success(arr);
    }

    method Pair(v1: bool) returns (r: Result<(Bytes, Value)>)
      modifies this
      ensures Matches(r, pos, ReadPair(data, old(pos), v1))
    {
      var key := String(v1);
      if key.Failure? {
        return Failure(if key.error == TooLarge then TooLarge else Corrupt);
      }
      var t := Number(4);
      if t.Failure? {
        return Failure(Corrupt);
      }
      var v := ReadAny(t.value, v1, 0);
      if v.Failure? {
        return Failure(if v.error == TooLarge then TooLarge else Corrupt);
      }
      return Success((key.value, v.value));
    }

    /** The loop that fills the map. */
    method Pairs(v1: bool, count: nat) returns (r: Result<map<Bytes, Value>>)
      modifies this
      ensures Matches(r, pos, ReadPairs(data, old(pos), v1, count, map[]))
    {
      hide ReadPair;
      var kv: map<Bytes, Value> := map[];
      var i := 0;
      while i < count
        invariant i <= count
        invariant ReadPairs(data, old(pos), v1, count, map[]) == ReadPairs(data, pos, v1, count - i, kv)
      {
        var pair := Pair(v1);
        if pair.Failure? {
          return Failure(pair.error);
        }
        kv := kv[pair.value.0 := pair.value.1];
        i := i + 1;
      }
      r := Success(kv);
    }

    method Counts(v1: bool) returns (r: Result<(nat, nat)>)
      modifies this
      ensures Matches(r, pos, ReadCounts(data, old(pos), v1))
    {
      var tensorCount := Length(v1);
      if tensorCount.Failure? {
        return Failure(Corrupt);
      }
      var kvCount := Length(v1);
      if kvCount.Failure? {
        return Failure(Corrupt);
      }
      r := Success((tensorCount.value, kvCount.value));
    }

    /** `ReadHeader`, from the start of the input. */
    method Run() returns (r: Result<Header>)
      requires pos == 0
      modifies this
      ensures Matches(r, pos, ReadHeader(data))
    {
      hide ReadNumber, ReadCounts, ReadPairs;
      if |data| < 4 || data[..4] != MAGIC {
        return Failure(InvalidMagic);
      }
      pos := 4;
      NumberFailsTruncated(data, 4, 4);
      var version := Number(4);
      if version.Failure? {
        return Failure(Corrupt);
      }
      if version.value != 1 && version.value != 2 && version.value != 3 {
        return Failure(UnsupportedVersion);
      }
      var counts := Counts(version.value == 1);
      if counts.Failure? {
        return Failure(counts.error);
      }
      if counts.value.1 > MAX_PAIRS {
        return Failure(TooLarge);
      }
      var kv := Pairs(version.value == 1, counts.value.1);
      if kv.Failure? {
        return Failure(kv.error);
      }
      return Success(Header(version.value, counts.value.0, counts.value.1, kv.value));
    }
  }

  lemma NumberFailsTruncated(d: Bytes, pos: nat, w: nat)
    ensures ReadNumber(d, pos, w).Err? ==> ReadNumber(d, pos, w).error == Truncated
  {
  }
}
