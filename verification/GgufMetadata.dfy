/** The attributes read off a header, and the fixture writer that must be read back. */
module GgufMetadata {
  import opened Options
  import opened GgufBytes
  import opened GgufReader
  import opened GgufWriter

  // ----- Quantization names

  /** `FileTypeNames`. */
  function FileTypeName(code: nat): Option<string> {
    match code
    case 0 => Some("F32")
    case 1 => Some("F16")
    case 2 => Some("Q4_0")
    case 3 => Some("Q4_1")
    case 7 => Some("Q8_0")
    case 8 => Some("Q5_0")
    case 9 => Some("Q5_1")
    case 10 => Some("Q2_K")
    case 11 => Some("Q3_K_S")
    case 12 => Some("Q3_K_M")
    case 13 => Some("Q3_K_L")
    case 14 => Some("Q4_K_S")
    case 15 => Some("Q4_K_M")
    case 16 => Some("Q5_K_S")
    case 17 => Some("Q5_K_M")
    case 18 => Some("Q6_K")
    case 19 => Some("IQ2_XXS")
    case 20 => Some("IQ2_XS")
    case 21 => Some("Q2_K_S")
    case 22 => Some("IQ3_XS")
    case 23 => Some("IQ3_S")
    case 24 => Some("IQ2_S")
    case 25 => Some("IQ2_M")
    case 26 => Some("IQ1_S")
    case 27 => Some("IQ4_NL")
    case 28 => Some("IQ3_M")
    case 29 => Some("IQ4_XS")
    case 30 => Some("IQ1_M")
    case 31 => Some("BF16")
    case 32 => Some("Q4_0_4_4")
    case 33 => Some("Q4_0_4_8")
    case 34 => Some("Q4_0_8_8")
    case 35 => Some("TQ1_0")
    case 36 => Some("TQ2_0")
    case _ => None
  }

  const CODES: nat := 37

  function UpperByte(b: byte): byte {
    if 97 <= b <= 122 then b - 32 else b
  }

  /** `strings.ToUpper`, as far as the result is ASCII: besides the small letters, the dotless i
      and the long s have capitals there. Whatever else is not ASCII has none and is kept. */
  function Upper(s: Bytes): Bytes {
    if s == [] then []
    else if |s| >= 2 && s[..2] == [0xC4, 0xB1] then ['I' as int] + Upper(s[2..])
    else if |s| >= 2 && s[..2] == [0xC5, 0xBF] then ['S' as int] + Upper(s[2..])
    else [UpperByte(s[0])] + Upper(s[1..])
  }

  predicate HasNoLower(s: string) {
    forall i | 0 <= i < |s| :: s[i] < 'a'
  }

  predicate WellNamed(code: nat) {
    FileTypeName(code).Some? ==> code < CODES && HasNoLower(FileTypeName(code).value) && FileTypeName(code).value != ""
  }

  lemma EarlyNames(code: nat)
    requires code < 19
    ensures WellNamed(code)
  {
  }

  lemma LateNames(code: nat)
    requires code >= 19
    ensures WellNamed(code)
  {
  }

  lemma UpperNames(code: nat)
    ensures WellNamed(code)
  {
    hide WellNamed;
    if code < 19 {
      EarlyNames(code);
    } else {
      LateNames(code);
    }
  }

  /** The table read the other way. */
  function CodeNamed(s: string): nat {
    if s == "F32" then 0
    else if s == "F16" then 1
    else if s == "Q4_0" then 2
    else if s == "Q4_1" then 3
    else if s == "Q8_0" then 7
    else if s == "Q5_0" then 8
    else if s == "Q5_1" then 9
    else if s == "Q2_K" then 10
    else if s == "Q3_K_S" then 11
    else if s == "Q3_K_M" then 12
    else if s == "Q3_K_L" then 13
    else if s == "Q4_K_S" then 14
    else if s == "Q4_K_M" then 15
    else if s == "Q5_K_S" then 16
    else if s == "Q5_K_M" then 17
    else if s == "Q6_K" then 18
    else if s == "IQ2_XXS" then 19
    else if s == "IQ2_XS" then 20
    else if s == "Q2_K_S" then 21
    else if s == "IQ3_XS" then 22
    else if s == "IQ3_S" then 23
    else if s == "IQ2_S" then 24
    else if s == "IQ2_M" then 25
    else if s == "IQ1_S" then 26
    else if s == "IQ4_NL" then 27
    else if s == "IQ3_M" then 28
    else if s == "IQ4_XS" then 29
    else if s == "IQ1_M" then 30
    else if s == "BF16" then 31
    else if s == "Q4_0_4_4" then 32
    else if s == "Q4_0_4_8" then 33
    else if s == "Q4_0_8_8" then 34
    else if s == "TQ1_0" then 35
    else if s == "TQ2_0" then 36
    else 0
  }

  lemma EarlyCodes(code: nat)
    requires code < 19 && FileTypeName(code).Some?
    ensures CodeNamed(FileTypeName(code).value) == code
  {
  }

  lemma MiddleCodes(code: nat)
    requires 19 <= code < 28 && FileTypeName(code).Some?
    ensures CodeNamed(FileTypeName(code).value) == code
  {
  }

  lemma LateCodes(code: nat)
    requires code >= 28 && FileTypeName(code).Some?
    ensures CodeNamed(FileTypeName(code).value) == code
  {
  }

  lemma NamedBack(code: nat)
    requires FileTypeName(code).Some?
    ensures CodeNamed(FileTypeName(code).value) == code
  {
    hide FileTypeName, CodeNamed;
    if code < 19 {
      EarlyCodes(code);
    } else if code < 28 {
      MiddleCodes(code);
    } else {
      LateCodes(code);
    }
  }

  /** No two file types share a name, up to case, so the lookup has one answer in whatever order the
      table is iterated. */
  lemma NamesDistinct(c1: nat, c2: nat, name: Bytes)
    requires Names(c1, name) && Names(c2, name)
    ensures c1 == c2
  {
    UpperNames(c1);
    UpperNames(c2);
    UpperFixes(FileTypeName(c1).value);
    UpperFixes(FileTypeName(c2).value);
    hide FileTypeName, CodeNamed, Upper;
    AsciiInjective(FileTypeName(c1).value, FileTypeName(c2).value);
    NamedBack(c1);
    NamedBack(c2);
  }

  lemma AsciiInjective(a: string, b: string)
    requires HasNoLower(a) && HasNoLower(b) && Ascii(a) == Ascii(b)
    ensures a == b
  {
    assert |a| == |Ascii(a)| == |b|;
    forall i | 0 <= i < |a|
      ensures a[i] == b[i]
    {
      assert Ascii(a)[i] == a[i] as int && Ascii(b)[i] == b[i] as int;
    }
  }

  lemma UpperFixes(s: string)
    requires HasNoLower(s)
    ensures Upper(Ascii(s)) == Ascii(s)
  {
    UpperKeeps(Ascii(s));
  }

  lemma {:induction false} UpperKeeps(b: Bytes)
    requires forall i | 0 <= i < |b| :: b[i] < 97
    ensures Upper(b) == b
  {
    if b != [] {
      assert |b| >= 2 ==> b[..2][0] == b[0];
      UpperKeeps(b[1..]);
    }
  }

  /** The file type whose name is `name`, up to case. */
  predicate Names(code: nat, name: Bytes) {
    FileTypeName(code).Some? && Upper(Ascii(FileTypeName(code).value)) == Upper(name)
  }

  /** `FileTypeNameToType`, in whatever order the table is iterated. */
  method FileTypeNameToType(name: Bytes) returns (code: Option<nat>)
    ensures code.Some? ==> Names(code.value, name)
    ensures code.None? ==> forall c: nat :: !Names(c, name)
  {
    var table := seq(CODES, (i: nat) => i);
    var rest := set c | c in table;
    forall c: nat | Names(c, name)
      ensures c in rest
    {
      UpperNames(c);
      assert table[c] == c;
    }
    while rest != {}
      invariant forall c: nat | Names(c, name) :: c in rest
      decreases rest
    {
      var c :| c in rest;
      if Names(c, name) {
        return Some(c);
      }
      rest := rest - {c};
    }
    code := None;
  }

  // ----- extractMetadata

  datatype Metadata = Metadata(architecture: Bytes, contextLength: nat, blockCount: nat, quantization: Bytes)

  /** How a floating-point value converts, if it does; nothing is assumed about it. */
  type Floats = Value -> Option<nat>

  function ToUint64(v: Value, floats: Floats): Option<nat> {
    match v
    case Num(k, n) => if k == F32 || k == F64 then floats(v) else if n >= 0 then Some(n) else None
    case _ => None
  }

  /** The first of the keys that holds a number. */
  function FirstNumber(kv: map<Bytes, Value>, keys: seq<Bytes>, floats: Floats): nat {
    if keys == [] then 0
    else if keys[0] in kv && ToUint64(kv[keys[0]], floats).Some? then ToUint64(kv[keys[0]], floats).value
    else FirstNumber(kv, keys[1..], floats)
  }

  method FindNumber(kv: map<Bytes, Value>, keys: seq<Bytes>, floats: Floats) returns (n: nat)
    ensures n == FirstNumber(kv, keys, floats)
  {
    n := 0;
    var i := 0;
    while i < |keys|
      invariant 0 <= i <= |keys| && n == 0
      invariant FirstNumber(kv, keys, floats) == FirstNumber(kv, keys[i..], floats)
    {
      assert keys[i..][1..] == keys[i + 1..];
      if keys[i] in kv {
        var num := ToUint64(kv[keys[i]], floats);
        if num.Some? {
          n := num.value;
          return;
        }
      }
      i := i + 1;
    }
  }

  function Decimal(n: nat): string {
    if n < 10 then ["0123456789"[n]] else Decimal(n / 10) + ["0123456789"[n % 10]]
  }

  const ARCHITECTURE := "general.architecture"
  const FILE_TYPE := "general.file_type"
  const QUANTIZATION := "general.quantization"
  const CONTEXT_LENGTH := ".context_length"
  const BLOCK_COUNT := ".block_count"

  function TextAt(kv: map<Bytes, Value>, key: string): Option<Bytes> {
    if Ascii(key) in kv && kv[Ascii(key)].Text? then Some(kv[Ascii(key)].s) else None
  }

  /** The name for `general.file_type`; the table is indexed by the lower 32 bits. */
  function FileTypeText(kv: map<Bytes, Value>, floats: Floats): Bytes {
    if Ascii(FILE_TYPE) !in kv then []
    else
      var v := kv[Ascii(FILE_TYPE)];
      match ToUint64(v, floats)
      case Some(code) =>
        (match FileTypeName(code % 0x1_0000_0000)
         case Some(name) => Ascii(name)
         case None => Ascii("TYPE_") + Ascii(Decimal(code)))
      case None => if v.Text? then v.s else []
  }

  function OrUnknown(s: Option<Bytes>): Bytes {
    if s.Some? then s.value else Ascii("unknown")
  }

  function ExtractMetadata(kv: map<Bytes, Value>, floats: Floats): Metadata {
    var architecture := OrUnknown(TextAt(kv, ARCHITECTURE));
    var named := FileTypeText(kv, floats);
    Metadata(
      architecture,
      FirstNumber(kv, [architecture + Ascii(CONTEXT_LENGTH), Ascii("general.context_length"), Ascii("llm.context_length")], floats),
      FirstNumber(kv, [architecture + Ascii(BLOCK_COUNT), Ascii("llm.block_count")], floats),
      if named == [] then OrUnknown(TextAt(kv, QUANTIZATION)) else named)
  }

  /** `extractMetadata`, with its loops over the key lists. */
  method Extract(kv: map<Bytes, Value>, floats: Floats) returns (meta: Metadata)
    ensures meta == ExtractMetadata(kv, floats)
  {
    hide Ascii, FirstNumber, FileTypeText, ToUint64;
    var architecture := OrUnknown(TextAt(kv, ARCHITECTURE));
    var contextLength := FindNumber(kv, [architecture + Ascii(CONTEXT_LENGTH), Ascii("general.context_length"), Ascii("llm.context_length")], floats);
    var blockCount := FindNumber(kv, [architecture + Ascii(BLOCK_COUNT), Ascii("llm.block_count")], floats);
    var quantization := FileTypeText(kv, floats);
    if quantization == [] {
      quantization := OrUnknown(TextAt(kv, QUANTIZATION));
    }
    meta := Metadata(architecture, contextLength, blockCount, quantization);
  }

  /** The number that the map holds for a key. */
  function NumberIn(kv: map<Bytes, Value>, key: Bytes, floats: Floats): Option<nat> {
    if key in kv then ToUint64(kv[key], floats) else None
  }

  /** Integers that are not negative are numbers, as they are; nothing else is, but for what the
      conversion of floating-point values makes of them. */
  lemma NumbersAre(v: Value, floats: Floats)
    ensures forall k, n | v == Num(k, n) && k != F32 && k != F64 :: ToUint64(v, floats) == if n >= 0 then Some(n) else None
    ensures v.Flag? || v.Text? || v.List? ==> ToUint64(v, floats).None?
    ensures forall k, n | v == Num(k, n) && (k == F32 || k == F64) :: ToUint64(v, floats) == floats(v)
  {
  }

  function Or(n: Option<nat>, otherwise: nat): nat {
    if n.Some? then n.value else otherwise
  }

  predicate HasText(kv: map<Bytes, Value>, key: string, s: Bytes) {
    Ascii(key) in kv && kv[Ascii(key)] == Text(s)
  }

  /** What is read off any map. Each attribute comes from its own keys, those that name the
      architecture first, and a key without a number is passed over. */
  lemma MetadataReads(kv: map<Bytes, Value>, floats: Floats)
    ensures var meta := ExtractMetadata(kv, floats);
            var arch := meta.architecture;
            && (HasText(kv, "general.architecture", arch)
                || (arch == Ascii("unknown") && forall s :: !HasText(kv, "general.architecture", s)))
            && meta.contextLength == Or(NumberIn(kv, arch + Ascii(".context_length"), floats),
                                        Or(NumberIn(kv, Ascii("general.context_length"), floats),
                                           Or(NumberIn(kv, Ascii("llm.context_length"), floats), 0)))
            && meta.blockCount == Or(NumberIn(kv, arch + Ascii(".block_count"), floats),
                                     Or(NumberIn(kv, Ascii("llm.block_count"), floats), 0))
  {
    hide Ascii, ToUint64, FileTypeText;
    var arch := ExtractMetadata(kv, floats).architecture;
    assert CONTEXT_LENGTH == ".context_length" && BLOCK_COUNT == ".block_count" && ARCHITECTURE == "general.architecture";
    FirstOfThree(kv, arch + Ascii(CONTEXT_LENGTH), Ascii("general.context_length"), Ascii("llm.context_length"), floats);
    FirstOfTwo(kv, arch + Ascii(BLOCK_COUNT), Ascii("llm.block_count"), floats);
    hide FirstNumber;
  }

  lemma FirstOfTwo(kv: map<Bytes, Value>, a: Bytes, b: Bytes, floats: Floats)
    ensures FirstNumber(kv, [a, b], floats) == Or(NumberIn(kv, a, floats), Or(NumberIn(kv, b, floats), 0))
  {
    hide ToUint64;
    assert [b][1..] == [] && FirstNumber(kv, [b], floats) == Or(NumberIn(kv, b, floats), 0);
    assert [a, b][1..] == [b];
  }

  lemma FirstOfThree(kv: map<Bytes, Value>, a: Bytes, b: Bytes, c: Bytes, floats: Floats)
    ensures FirstNumber(kv, [a, b, c], floats) == Or(NumberIn(kv, a, floats), Or(NumberIn(kv, b, floats), Or(NumberIn(kv, c, floats), 0)))
  {
    hide ToUint64;
    FirstOfTwo(kv, b, c, floats);
    assert [a, b, c][1..] == [b, c];
  }

  /** The quantization is the name of the file type, or a number in its place, or the text there;
      failing all that, the text of its own key, or "unknown". */
  lemma QuantizationReads(kv: map<Bytes, Value>, floats: Floats)
    ensures var q, code := ExtractMetadata(kv, floats).quantization, NumberIn(kv, Ascii("general.file_type"), floats);
            && (code.Some? && FileTypeName(code.value % 0x1_0000_0000).Some? ==>
                  q == Ascii(FileTypeName(code.value % 0x1_0000_0000).value))
            && (code.Some? && FileTypeName(code.value % 0x1_0000_0000).None? ==> q == Ascii("TYPE_") + Ascii(Decimal(code.value)))
            && (forall s :: s != [] && HasText(kv, "general.file_type", s) ==> q == s)
            && (code.None? && (forall s :: s != [] ==> !HasText(kv, "general.file_type", s)) ==>
                  HasText(kv, "general.quantization", q)
                  || (q == Ascii("unknown") && forall s :: !HasText(kv, "general.quantization", s)))
  {
    var code := NumberIn(kv, Ascii("general.file_type"), floats);
    if code.Some? {
      var name := FileTypeName(code.value % 0x1_0000_0000);
      UpperNames(code.value % 0x1_0000_0000);
      hide Ascii, FileTypeName, Decimal, FirstNumber;
      if name.Some? {
        AsciiLength(name.value);
        assert FileTypeText(kv, floats) == Ascii(name.value);
      } else {
        AsciiLength("TYPE_");
        assert FileTypeText(kv, floats) == Ascii("TYPE_") + Ascii(Decimal(code.value));
      }
    } else {
      hide Ascii, FileTypeName, Decimal, FirstNumber;
      assert FILE_TYPE == "general.file_type";
      assert FileTypeText(kv, floats) != [] ==> HasText(kv, "general.file_type", FileTypeText(kv, floats));
      assert QUANTIZATION == "general.quantization";
    }
  }

  lemma AsciiLength(s: string)
    ensures |Ascii(s)| == |s|
  {
  }

  // ----- The fixture

  datatype Params = Params(architecture: Bytes, contextLength: nat, quantization: Bytes, extra: map<Bytes, Value>)

  function Defaulted(p: Params): Params {
    Params(if p.architecture == [] then Ascii("llama") else p.architecture,
           if p.contextLength == 0 then 4096 else p.contextLength,
           if p.quantization == [] then Ascii("Q4_K_M") else p.quantization,
           p.extra)
  }

  /** The map that the fixture builds, given the outcome of the name lookup. */
  function FixtureMap(p: Params, code: Option<nat>): map<Bytes, Value> {
    var q := Defaulted(p);
    map[Ascii(ARCHITECTURE) := Text(q.architecture),
        q.architecture + Ascii(CONTEXT_LENGTH) := Num(U64, q.contextLength)]
    + (if code.Some? then map[Ascii(FILE_TYPE) := Num(U32, code.value)] else map[Ascii(QUANTIZATION) := Text(q.quantization)])
    + q.extra
  }

  ghost predicate LookedUp(name: Bytes, code: Option<nat>) {
    if code.Some? then Names(code.value, name) else forall c: nat :: !Names(c, name)
  }

  class Buffer {
    var bytes: Bytes

    constructor ()
      ensures bytes == []
    {
      bytes := [];
    }

    method WriteNumber(n: nat, w: nat)
      modifies this
      ensures bytes == old(bytes) + LittleEndian(n, w)
    {
      var rest := n;
      var i := 0;
      while i < w
        invariant 0 <= i <= w
        invariant bytes + LittleEndian(rest, w - i) == old(bytes) + LittleEndian(n, w)
      {
        assert LittleEndian(rest, w - i) == [rest % 256] + LittleEndian(rest / 256, w - i - 1);
        bytes := bytes + [rest % 256];
        rest := rest / 256;
        i := i + 1;
      }
    }

    method WriteString(s: Bytes)
      modifies this
      ensures bytes == old(bytes) + PrintString(s)
    {
      WriteNumber(|s|, 8);
      bytes := bytes + s;
    }

    method WritePayload(v: Value)
      requires Encodable(v)
      modifies this
      ensures bytes == old(bytes) + Payload(v)
    {
      hide LittleEndian, Word, PrintString;
      match v
      case Num(k, n) => WriteNumber(Word(k, n), Width(k));
      case Flag(b) => bytes := bytes + [if b then 1 else 0];
      case Text(s) => WriteString(s);
      case GoInt(n) => WriteNumber(n % 0x1_0000_0000, 4);
      case GoUint(n) => WriteNumber(n, 8);
    }

    /** `ok` is false where the writer panics. */
    method WriteValue(v: Value) returns (ok: bool)
      requires InRange(v)
      modifies this
      ensures ok <==> Encodable(v)
      ensures ok ==> bytes == old(bytes) + PrintValue(v)
    {
      hide LittleEndian, Payload, InRange, TypeCode;
      if v.List? {
        return false;
      }
      WriteNumber(TypeCode(v), 4);
      WritePayload(v);
      return true;
    }

    method WritePair(k: Bytes, v: Value) returns (ok: bool)
      requires InRange(v)
      modifies this
      ensures ok <==> Encodable(v)
      ensures ok ==> bytes == old(bytes) + PrintPair(k, v)
    {
      hide PrintString, PrintValue, Encodable;
      WriteString(k);
      ok := WriteValue(v);
    }

    /** The loop over the map, in whatever order it is iterated. */
    method WritePairs(kv: map<Bytes, Value>) returns (ok: bool, ghost order: seq<Bytes>)
      requires AllInRange(kv)
      modifies this
      ensures ok <==> AllEncodable(kv)
      ensures ok ==> Enumerates(order, kv.Keys) && bytes == old(bytes) + PrintPairs(kv, order)
    {
      hide PrintPair, Encodable, Enumerates, Printed, InRange, PrintPairs, AllInRange, AllEncodable;
      order := [];
      EnumeratesNothing();
      PrintedNothing(kv);
      var rest := kv.Keys;
      assert kv.Keys - rest == {};
      while rest != {}
        invariant rest <= kv.Keys && Enumerates(order, kv.Keys - rest)
        invariant (forall k | k in order :: k in kv) && forall k | k in kv && k !in rest :: Encodable(kv[k])
        invariant bytes == old(bytes) + Printed(kv, order)
        decreases rest
      {
        var k :| k in rest;
        EncodableAt(kv, k);
        ok := WritePair(k, kv[k]);
        if !ok {
          return;
        }
        PrintedAppend(kv, order, k);
        EnumeratesAppend(order, kv.Keys - rest, k);
        assert kv.Keys - (rest - {k}) == kv.Keys - rest + {k};
        order := order + [k];
        rest := rest - {k};
      }
      ok := true;
      EncodableAll(kv);
      assert kv.Keys - rest == kv.Keys;
      PrintedIsPairs(kv, order);
    }

    method WriteAll(kv: map<Bytes, Value>) returns (ok: bool, ghost order: seq<Bytes>)
      requires AllInRange(kv) && bytes == []
      modifies this
      ensures ok <==> AllEncodable(kv)
      ensures ok ==> Enumerates(order, kv.Keys) && bytes == PrintHeader(kv, order)
    {
      hide LittleEndian, AllEncodable, Enumerates, PrintPairs, AllInRange;
      bytes := bytes + MAGIC;
      WriteNumber(3, 4);
      WriteNumber(0, 8);
      WriteNumber(|kv|, 8);
      assert bytes == PrintStart(kv);
      ok, order := WritePairs(kv);
    }
  }

  lemma EncodableAt(kv: map<Bytes, Value>, k: Bytes)
    requires AllInRange(kv) && k in kv
    ensures InRange(kv[k]) && (AllEncodable(kv) ==> Encodable(kv[k]))
  {
  }

  lemma EncodableAll(kv: map<Bytes, Value>)
    requires AllInRange(kv) && forall k | k in kv :: Encodable(kv[k])
    ensures AllEncodable(kv)
  {
  }

  lemma EnumeratesNothing()
    ensures Enumerates([], {})
  {
  }

  lemma PrintedNothing(kv: map<Bytes, Value>)
    ensures Printed(kv, []) == []
  {
  }

  lemma EnumeratesAppend(order: seq<Bytes>, keys: set<Bytes>, k: Bytes)
    requires Enumerates(order, keys) && k !in keys
    ensures Enumerates(order + [k], keys + {k})
  {
  }

  /** Every key and value is one that Go can hold; arrays are allowed and make the writer panic. */
  ghost predicate AllInRange(kv: map<Bytes, Value>) {
    |kv| < 0x8000_0000_0000_0000 && forall k | k in kv :: |k| < 0x8000_0000_0000_0000 && InRange(kv[k])
  }

  /** The pairs written so far; arrays print as nothing, since the writer stops there. */
  function Printed(kv: map<Bytes, Value>, order: seq<Bytes>): Bytes
    requires forall k | k in order :: k in kv
  {
    if order == [] then []
    else (if Encodable(kv[order[0]]) then PrintPair(order[0], kv[order[0]]) else []) + Printed(kv, order[1..])
  }

  lemma Associates(a: Bytes, b: Bytes, c: Bytes)
    ensures a + (b + c) == (a + b) + c
  {
  }

  lemma {:induction false} PrintedAppend(kv: map<Bytes, Value>, order: seq<Bytes>, k: Bytes)
    requires (forall j | j in order :: j in kv) && k in kv && Encodable(kv[k])
    ensures Printed(kv, order + [k]) == Printed(kv, order) + PrintPair(k, kv[k])
  {
    hide PrintPair, Encodable;
    if order == [] {
      assert [k][1..] == [];
    } else {
      assert (order + [k])[1..] == order[1..] + [k];
      PrintedAppend(kv, order[1..], k);
      Associates(if Encodable(kv[order[0]]) then PrintPair(order[0], kv[order[0]]) else [], Printed(kv, order[1..]), PrintPair(k, kv[k]));
    }
  }

  lemma {:induction false} PrintedIsPairs(kv: map<Bytes, Value>, order: seq<Bytes>)
    requires AllEncodable(kv) && forall k | k in order :: k in kv
    ensures Printed(kv, order) == PrintPairs(kv, order)
  {
    if order != [] {
      PrintedIsPairs(kv, order[1..]);
    }
  }

  /** The bytes are the fixture's map printed in some order, or nothing where it has an array. */
  ghost predicate IsFixture(p: Params, code: Option<nat>, order: seq<Bytes>, r: Option<Bytes>) {
    && LookedUp(Defaulted(p).quantization, code)
    && (r.Some? <==> AllEncodable(FixtureMap(p, code)))
    && (r.Some? ==> Enumerates(order, FixtureMap(p, code).Keys) && r.value == PrintHeader(FixtureMap(p, code), order))
  }

  /** `CreateTestGGUF`; no result where it panics. */
  method CreateTestGGUF(p: Params) returns (r: Option<Bytes>)
    requires forall code | LookedUp(Defaulted(p).quantization, code) :: AllInRange(FixtureMap(p, code))
    ensures exists code, order :: IsFixture(p, code, order, r)
  {
    hide AllInRange, AllEncodable, Enumerates, PrintHeader, FixtureMap, LookedUp;
    var kv, code := FixturePairs(p);
    var buf := new Buffer();
    var ok;
    ghost var order;
    ok, order := buf.WriteAll(kv);
    r := if ok then Some(buf.bytes) else None;
    assert IsFixture(p, code, order, r);
  }

  method FixturePairs(p: Params) returns (kv: map<Bytes, Value>, code: Option<nat>)
    ensures LookedUp(Defaulted(p).quantization, code) && kv == FixtureMap(p, code)
  {
    hide Ascii, Names;
    var q := Defaulted(p);
    kv := map[Ascii(ARCHITECTURE) := Text(q.architecture)];
    kv := kv[q.architecture + Ascii(CONTEXT_LENGTH) := Num(U64, q.contextLength)];
    code := FileTypeNameToType(q.quantization);
    if code.Some? {
      kv := kv[Ascii(FILE_TYPE) := Num(U32, code.value)];
    } else {
      kv := kv[Ascii(QUANTIZATION) := Text(q.quantization)];
    }
    kv := kv + p.extra;
  }

  // ----- Reading the fixture back

  function NumberAt(kv: map<Bytes, Value>, key: Bytes, floats: Floats): Option<nat> {
    if key in kv then ToUint64(Normal(kv[key]), floats) else None
  }

  /** The extra pairs leave what the fixture says as it is: where they carry one of its keys, the
      value means the same. */
  predicate LeavesKeys(p: Params, code: Option<nat>, floats: Floats) {
    var q, e := Defaulted(p), p.extra;
    var length := q.architecture + Ascii(CONTEXT_LENGTH);
    && (Ascii(ARCHITECTURE) in e ==> e[Ascii(ARCHITECTURE)] == Text(q.architecture))
    && (length in e ==> NumberAt(e, length, floats) == Some(q.contextLength))
    && (if code.Some? then Ascii(FILE_TYPE) in e ==> NumberAt(e, Ascii(FILE_TYPE), floats) == Some(code.value)
        else
          && (Ascii(FILE_TYPE) in e ==> NumberAt(e, Ascii(FILE_TYPE), floats).None? && (e[Ascii(FILE_TYPE)].Text? ==> e[Ascii(FILE_TYPE)].s == []))
          && (Ascii(QUANTIZATION) in e ==> e[Ascii(QUANTIZATION)] == Text(q.quantization)))
  }

  /** A map that says of a file what the fixture says. */
  predicate Says(kv: map<Bytes, Value>, q: Params, code: Option<nat>, floats: Floats) {
    && TextAt(kv, ARCHITECTURE) == Some(q.architecture)
    && q.architecture + Ascii(CONTEXT_LENGTH) in kv
    && ToUint64(kv[q.architecture + Ascii(CONTEXT_LENGTH)], floats) == Some(q.contextLength)
    && (if code.Some? then Ascii(FILE_TYPE) in kv && ToUint64(kv[Ascii(FILE_TYPE)], floats) == code
        else FileTypeText(kv, floats) == [] && TextAt(kv, QUANTIZATION) == Some(q.quantization))
  }

  lemma KeysDistinct(arch: Bytes)
    ensures Ascii(ARCHITECTURE) != Ascii(FILE_TYPE) && Ascii(ARCHITECTURE) != Ascii(QUANTIZATION)
    ensures Ascii(FILE_TYPE) != Ascii(QUANTIZATION)
    ensures arch + Ascii(CONTEXT_LENGTH) != Ascii(ARCHITECTURE)
    ensures arch + Ascii(CONTEXT_LENGTH) != Ascii(FILE_TYPE)
    ensures arch + Ascii(CONTEXT_LENGTH) != Ascii(QUANTIZATION)
  {
    var k := arch + Ascii(CONTEXT_LENGTH);
    assert |Ascii(ARCHITECTURE)| == 20 && |Ascii(FILE_TYPE)| == 17 && |Ascii(QUANTIZATION)| == 20;
    assert Ascii(ARCHITECTURE)[8] == 'a' as int && Ascii(QUANTIZATION)[8] == 'q' as int;
    assert k[|k| - 1] == 'h' as int;
    assert Ascii(ARCHITECTURE)[19] == 'e' as int && Ascii(FILE_TYPE)[16] == 'e' as int && Ascii(QUANTIZATION)[19] == 'n' as int;
  }

  /** The quantization that reading back yields: a known name in its canonical spelling, any
      other as it was given. */
  function Canonical(name: Bytes, code: Option<nat>): Bytes {
    if code.Some? then Upper(name) else name
  }

  lemma FixtureKeys(p: Params, code: Option<nat>, floats: Floats)
    requires LeavesKeys(p, code, floats)
    ensures Says(NormalMap(FixtureMap(p, code)), Defaulted(p), code, floats)
  {
    KeysDistinct(Defaulted(p).architecture);
    hide Ascii;
  }

  /** No key of the fixture itself is one of the block count. */
  lemma BlockKeysFree(p: Params, code: Option<nat>, arch: Bytes)
    ensures var kv := NormalMap(FixtureMap(p, code));
            && (arch + Ascii(BLOCK_COUNT) in kv <==> arch + Ascii(BLOCK_COUNT) in p.extra)
            && (Ascii("llm.block_count") in kv <==> Ascii("llm.block_count") in p.extra)
  {
    NotOwn(p, code, arch + Ascii(BLOCK_COUNT), arch, BLOCK_COUNT);
    assert [] + Ascii("llm.block_count") == Ascii("llm.block_count");
    NotOwn(p, code, Ascii("llm.block_count"), [], "llm.block_count");
    hide Ascii, FixtureMap;
  }

  /** None of the fixture's own keys ends in t. */
  lemma NotOwn(p: Params, code: Option<nat>, key: Bytes, prefix: Bytes, s: string)
    requires key == prefix + Ascii(s) && s != "" && s[|s| - 1] == 't'
    ensures key in FixtureMap(p, code) <==> key in p.extra
  {
    hide Ascii;
    LastByte(prefix, s);
    Differs(key, [], ARCHITECTURE);
    Differs(key, [], FILE_TYPE);
    Differs(key, [], QUANTIZATION);
    Differs(key, Defaulted(p).architecture, CONTEXT_LENGTH);
    IsOwn(p, code, key);
  }

  lemma Differs(key: Bytes, prefix: Bytes, s: string)
    requires s != "" && s[|s| - 1] < 't' && Last(key) == 't' as int
    ensures key != prefix + Ascii(s) && prefix + Ascii(s) == if prefix == [] then Ascii(s) else prefix + Ascii(s)
  {
    LastByte(prefix, s);
    assert [] + Ascii(s) == Ascii(s);
    hide Ascii;
  }

  lemma IsOwn(p: Params, code: Option<nat>, key: Bytes)
    requires key != Ascii(ARCHITECTURE) && key != Ascii(FILE_TYPE) && key != Ascii(QUANTIZATION)
    requires key != Defaulted(p).architecture + Ascii(CONTEXT_LENGTH)
    ensures key in FixtureMap(p, code) <==> key in p.extra
  {
    hide Ascii;
  }

  function Last(b: Bytes): int {
    if b == [] then -1 else b[|b| - 1]
  }

  lemma LastByte(prefix: Bytes, s: string)
    requires s != ""
    ensures Last(prefix + Ascii(s)) == (s[|s| - 1] as int) % 256
  {
    var a := Ascii(s);
    assert |a| == |s| && a[|s| - 1] == (s[|s| - 1] as int) % 256;
    hide Ascii;
    LastOfSum(prefix, a);
  }

  lemma LastOfSum(a: Bytes, b: Bytes)
    requires b != []
    ensures Last(a + b) == b[|b| - 1]
  {
  }

  lemma ExtraBlocks(p: Params, code: Option<nat>, floats: Floats)
    ensures var kv, arch := NormalMap(FixtureMap(p, code)), Defaulted(p).architecture;
            && NumberIn(kv, arch + Ascii(BLOCK_COUNT), floats) == NumberAt(p.extra, arch + Ascii(BLOCK_COUNT), floats)
            && NumberIn(kv, Ascii("llm.block_count"), floats) == NumberAt(p.extra, Ascii("llm.block_count"), floats)
  {
    BlockKeysFree(p, code, Defaulted(p).architecture);
    hide Ascii, ToUint64;
  }

  lemma KnownName(code: nat, name: Bytes)
    requires Names(code, name)
    ensures code % 0x1_0000_0000 == code && Ascii(FileTypeName(code).value) == Upper(name) && Upper(name) != []
  {
    UpperNames(code);
    UpperFixes(FileTypeName(code).value);
  }

  /** A fixture is read back in full: the parser accepts it whatever tensor data follow, consumes
      exactly its bytes, returns its pairs, and the metadata are the architecture, the context
      length and the quantization it was made with. */
  lemma FixtureReadsBack(p: Params, code: Option<nat>, order: seq<Bytes>, tail: Bytes, floats: Floats)
    requires LookedUp(Defaulted(p).quantization, code) && LeavesKeys(p, code, floats)
    requires AllEncodable(FixtureMap(p, code)) && Readable(FixtureMap(p, code))
    requires Enumerates(order, FixtureMap(p, code).Keys)
    ensures var printed := PrintHeader(FixtureMap(p, code), order);
            var r := ReadHeader(printed + tail);
            && r.Ok? && r.next == |printed| && r.value.kv == NormalMap(FixtureMap(p, code))
            && (forall k | k in p.extra :: k in r.value.kv && r.value.kv[k] == Normal(p.extra[k]))
            && var meta, arch := ExtractMetadata(r.value.kv, floats), if p.architecture == [] then Ascii("llama") else p.architecture;
               && meta.architecture == arch && meta.contextLength == (if p.contextLength == 0 then 4096 else p.contextLength)
               && meta.quantization == Canonical(if p.quantization == [] then Ascii("Q4_K_M") else p.quantization, code)
               && meta.blockCount == Or(NumberAt(p.extra, arch + Ascii(".block_count"), floats),
                                        Or(NumberAt(p.extra, Ascii("llm.block_count"), floats), 0))
  {
    ExtraBlocks(p, code, floats);
    MetadataReads(NormalMap(FixtureMap(p, code)), floats);
    RoundTrip(FixtureMap(p, code), order, tail);
    FixtureKeys(p, code, floats);
    MetadataOf(NormalMap(FixtureMap(p, code)), Defaulted(p), code, floats);
  }

  lemma MetadataOf(kv: map<Bytes, Value>, q: Params, code: Option<nat>, floats: Floats)
    requires Says(kv, q, code, floats) && LookedUp(q.quantization, code) && q.quantization != []
    ensures var meta := ExtractMetadata(kv, floats);
            meta.architecture == q.architecture && meta.contextLength == q.contextLength
            && meta.quantization == Canonical(q.quantization, code)
  {
    if code.Some? {
      KnownName(code.value, q.quantization);
    }
    hide Upper, Ascii, FileTypeName, Names;
  }
}
