/**
 * The property clipboard of the map editor (PropertyCopier). An object's property dictionary is copied
 * as `key=value` lines, and pasted text is merged back into a dictionary in place: keys missing from the
 * text are removed, existing properties are converted to their current type, new keys get an inferred
 * type, and the four placement keys are never touched.
 */
module PropertyCopying {
  import opened Wrappers
  import opened DotNetText

  type Int32 = i: int | -0x8000_0000 <= i < 0x8000_0000
  type UInt32 = i: int | 0 <= i < 0x1_0000_0000
  type Int64 = i: int | -0x8000_0000_0000_0000 <= i < 0x8000_0000_0000_0000
  type UInt64 = i: int | 0 <= i < 0x1_0000_0000_0000_0000

  datatype FloatKind = Single | Double

  /**
   * A `dynamic` property value. A float or double is represented by the text its ToString() produces;
   * an object of any other type by its ToString() text.
   */
  datatype Value =
    | Null
    | Bool(b: bool)
    | Int(i: Int32)
    | UInt(u: UInt32)
    | Long(l: Int64)
    | ULong(ul: UInt64)
    | Float(kind: FloatKind, text: string)
    | Str(s: string)
    | List(items: seq<Value>)
    | Other(text: string)

  /** A dictionary entry: a MapData.Property wrapping a value, or a bare value. */
  datatype Entry = Property(value: Value) | Plain(value: Value)

  /** The runtime type of a non-null value, as ConvertValue tells them apart. */
  datatype ValueType = BoolType | IntType | UIntType | LongType | ULongType | FloatType(kind: FloatKind) | StringType | OtherType

  /** float.Parse/double.Parse (TryParse alike): the ToString() text of the parsed number, or None on a format error. */
  type FloatParser = (FloatKind, string) -> Option<string>

  /** The placement keys that are neither copied nor pasted (keysToKeep). */
  const RESERVED_KEYS: set<string> := {"!Parameters", "Scale", "Translate", "Rotate"}

  /** What ToString() gives for a List<object>. */
  const LIST_TYPE_NAME: string := "System.Collections.Generic.List`1[System.Object]"

  const INT32_MIN: int := -0x8000_0000
  const INT32_MAX: int := 0x7FFF_FFFF
  const UINT32_MAX: int := 0xFFFF_FFFF
  const INT64_MIN: int := -0x8000_0000_0000_0000
  const INT64_MAX: int := 0x7FFF_FFFF_FFFF_FFFF
  const UINT64_MAX: int := 0xFFFF_FFFF_FFFF_FFFF

  function TypeOf(v: Value): ValueType
    requires v != Null
  {
    match v
    case Bool(_) => BoolType
    case Int(_) => IntType
    case UInt(_) => UIntType
    case Long(_) => LongType
    case ULong(_) => ULongType
    case Float(kind, _) => FloatType(kind)
    case Str(_) => StringType
    case List(_) => OtherType
    case Other(_) => OtherType
  }

  /** `value?.ToString() ?? "null"`. */
  function Render(v: Value): string
  {
    match v
    case Null => "null"
    case Bool(b) => FormatBool(b)
    case Int(i) => FormatInteger(i)
    case UInt(u) => FormatInteger(u)
    case Long(l) => FormatInteger(l)
    case ULong(ul) => FormatInteger(ul)
    case Float(_, text) => text
    case Str(s) => s
    case List(_) => LIST_TYPE_NAME
    case Other(text) => text
  }

  // ---------------------------------------------------------------- value conversion

  /** ConvertValue: `value` parsed as `targetType`; Null when the parse throws or the type is not one of the eight handled. */
  function ConvertValue(value: string, targetType: ValueType, parseFloat: FloatParser): (r: Value)
    ensures r != Null ==> TypeOf(r) == targetType
    ensures targetType == StringType ==> r == Str(value)
    ensures targetType == OtherType ==> r == Null
    ensures targetType.FloatType? ==>
      (r == Null <==> parseFloat(targetType.kind, value).None?) && (r.Float? ==> parseFloat(targetType.kind, value) == Some(r.text))
    ensures targetType == IntType ==>
      (r == Null <==> ParseInteger(value, INT32_MIN, INT32_MAX).None?) && (r.Int? ==> ParseInteger(value, INT32_MIN, INT32_MAX) == Some(r.i as int))
    ensures targetType == UIntType ==>
      (r == Null <==> ParseInteger(value, 0, UINT32_MAX).None?) && (r.UInt? ==> ParseInteger(value, 0, UINT32_MAX) == Some(r.u as int))
    ensures targetType == LongType ==>
      (r == Null <==> ParseInteger(value, INT64_MIN, INT64_MAX).None?) && (r.Long? ==> ParseInteger(value, INT64_MIN, INT64_MAX) == Some(r.l as int))
    ensures targetType == ULongType ==>
      (r == Null <==> ParseInteger(value, 0, UINT64_MAX).None?) && (r.ULong? ==> ParseInteger(value, 0, UINT64_MAX) == Some(r.ul as int))
    ensures targetType == BoolType ==> (r == Null <==> ParseBool(value).None?) && (r.Bool? ==> ParseBool(value) == Some(r.b))
  {
    match targetType
    case FloatType(kind) =>
      (match parseFloat(kind, value) case Some(text) => Float(kind, text) case None => Null)
    case IntType => (match ParseInteger(value, INT32_MIN, INT32_MAX) case Some(n) => Int(n) case None => Null)
    case UIntType => (match ParseInteger(value, 0, UINT32_MAX) case Some(n) => UInt(n) case None => Null)
    case BoolType => (match ParseBool(value) case Some(b) => Bool(b) case None => Null)
    case StringType => Str(value)
    case LongType => (match ParseInteger(value, INT64_MIN, INT64_MAX) case Some(n) => Long(n) case None => Null)
    case ULongType => (match ParseInteger(value, 0, UINT64_MAX) case Some(n) => ULong(n) case None => Null)
    case OtherType => Null
  }

  /**
   * The value given to a property that has no typed value yet: null for "null", then a boolean,
   * then an int, then a float, and otherwise the text itself.
   */
  function Infer(value: string, parseFloat: FloatParser): (r: Value)
    ensures r == Null <==> value == "null"
    ensures r.Bool? <==> value != "null" && (LowerEquals(value, "true") || LowerEquals(value, "false"))
    ensures r.Int? ==> !r.Bool? && ParseInteger(value, INT32_MIN, INT32_MAX) == Some(r.i as int)
    ensures r.Float? ==> ParseInteger(value, INT32_MIN, INT32_MAX).None? && parseFloat(Single, value) == Some(r.text)
    ensures r.Str? ==> r.s == value && ParseInteger(value, INT32_MIN, INT32_MAX).None? && parseFloat(Single, value).None?
    ensures r.Null? || r.Bool? || r.Int? || (r.Float? && r.kind == Single) || r.Str?
  {
    if value == "null" then Null
    else if LowerEquals(value, "true") || LowerEquals(value, "false") then Bool(LowerEquals(value, "true"))
    else match ParseInteger(value, INT32_MIN, INT32_MAX)
      case Some(n) => Int(n)
      case None => (match parseFloat(Single, value) case Some(text) => Float(Single, text) case None => Str(value))
  }

  /** The boolean Infer picks is what bool.Parse gives for the same text. */
  lemma InferBoolIsParse(value: string, parseFloat: FloatParser)
    requires LowerEquals(value, "true") || LowerEquals(value, "false")
    ensures ParseBool(value) == Some(LowerEquals(value, "true"))
    ensures value != "null" ==> Infer(value, parseFloat) == Bool(ParseBool(value).value)
  {
    var strip := c => IsWhiteSpace(c) || c == '\0';
    assert |value| > 0 && !strip(value[0]) && !strip(value[|value| - 1]);
    TrimBothNoop(value, strip);
  }

  /**
   * The new value of an existing property whose current value is `current`: Some(v) to set it to v,
   * None when the conversion failed and the old value stays.
   */
  function Updated(current: Value, value: string, parseFloat: FloatParser): Option<Value>
  {
    if value == "null" then Some(Null)
    else if current != Null then
      var converted := ConvertValue(value, TypeOf(current), parseFloat);
      if converted == Null then None else Some(converted)
    else Some(Infer(value, parseFloat))
  }

  /** Pasting "null" always clears a property, and an update never clears it otherwise; a typed property keeps its type. */
  lemma UpdatedKeepsType(current: Value, value: string, parseFloat: FloatParser)
    ensures value == "null" ==> Updated(current, value, parseFloat) == Some(Null)
    ensures value != "null" ==> Updated(current, value, parseFloat) != Some(Null)
    ensures current != Null && value != "null" && Updated(current, value, parseFloat).Some? ==>
      TypeOf(Updated(current, value, parseFloat).value) == TypeOf(current)
  {
  }

  // ---------------------------------------------------------------- export

  predicate IsList(e: Entry)
  {
    e.Plain? && e.value.List?
  }

  /** Whether CopyProperties writes a line for the entry. */
  predicate Exported(key: string, e: Entry)
  {
    key !in RESERVED_KEYS && !IsList(e)
  }

  function ExportLine(key: string, e: Entry): string
  {
    key + "=" + Render(e.value)
  }

  /** The lines CopyProperties writes, in dictionary order. */
  function ExportLines(keys: seq<string>, entries: map<string, Entry>): (r: seq<string>)
    requires forall k :: k in keys ==> k in entries
    ensures |r| <= |keys|
    decreases |keys|
  {
    if |keys| == 0 then []
    else
      var key := keys[|keys| - 1];
      ExportLines(keys[..|keys| - 1], entries) + (if Exported(key, entries[key]) then [ExportLine(key, entries[key])] else [])
  }

  /** The clipboard text CopyProperties produces. */
  function ExportText(keys: seq<string>, entries: map<string, Entry>): string
    requires forall k :: k in keys ==> k in entries
  {
    JoinLines(ExportLines(keys, entries))
  }

  // ---------------------------------------------------------------- the dictionary

  /** A property dictionary: the keys in enumeration order, and the entries. */
  datatype Props = Props(keys: seq<string>, entries: map<string, Entry>)

  predicate Distinct(keys: seq<string>)
  {
    forall i, j :: 0 <= i < j < |keys| ==> keys[i] != keys[j]
  }

  /** Each key appears once in the order, and exactly the keys of the entries appear. */
  ghost predicate PropsValid(p: Props)
  {
    Distinct(p.keys) && forall k :: k in p.entries <==> k in p.keys
  }

  /** `keys` without those in `drop`, in order. */
  function FilterOut(keys: seq<string>, drop: set<string>): (r: seq<string>)
    ensures forall k :: k in r <==> k in keys && k !in drop
    decreases |keys|
  {
    if |keys| == 0 then []
    else FilterOut(keys[..|keys| - 1], drop) + (if keys[|keys| - 1] in drop then [] else [keys[|keys| - 1]])
  }

  /** Filtering keeps the keys distinct. */
  lemma {:induction false} FilterOutDistinct(keys: seq<string>, drop: set<string>)
    ensures Distinct(keys) ==> Distinct(FilterOut(keys, drop))
    decreases |keys|
  {
    if |keys| != 0 && Distinct(keys) {
      var init := keys[..|keys| - 1];
      var last := keys[|keys| - 1];
      assert Distinct(init);
      FilterOutDistinct(init, drop);
      assert last !in init;
    }
  }

  /** Dropping nothing keeps every key. */
  lemma {:induction false} FilterOutNothing(keys: seq<string>)
    ensures FilterOut(keys, {}) == keys
    decreases |keys|
  {
    if |keys| != 0 {
      FilterOutNothing(keys[..|keys| - 1]);
      assert keys == keys[..|keys| - 1] + [keys[|keys| - 1]];
    }
  }

  /** Dropping in two rounds is dropping the union. */
  lemma {:induction false} FilterOutTwice(keys: seq<string>, a: set<string>, b: set<string>)
    ensures FilterOut(FilterOut(keys, a), b) == FilterOut(keys, a + b)
    decreases |keys|
  {
    if |keys| != 0 {
      var init := keys[..|keys| - 1];
      var last := keys[|keys| - 1];
      FilterOutTwice(init, a, b);
      var f := FilterOut(init, a);
      var tail := if last in a then [] else [last];
      assert FilterOut(keys, a) == f + tail;
      if last !in a {
        assert (f + [last])[..|f|] == f;
        assert FilterOut(f + [last], b) == FilterOut(f, b) + (if last in b then [] else [last]);
      } else {
        assert f + tail == f;
      }
    }
  }

  /** The dictionary without the keys in `drop`. */
  function Without(p: Props, drop: set<string>): Props
  {
    Props(FilterOut(p.keys, drop), map k | k in p.entries && k !in drop :: p.entries[k])
  }

  /** A key outside `drop` keeps its entry, and a key in it is gone. */
  lemma WithoutAt(p: Props, drop: set<string>, k: string)
    ensures k in drop ==> k !in Without(p, drop).entries
    ensures k !in drop ==> SameAt(Without(p, drop).entries, p.entries, k)
  {
  }

  lemma WithoutValid(p: Props, drop: set<string>)
    requires PropsValid(p)
    ensures PropsValid(Without(p, drop))
  {
    FilterOutDistinct(p.keys, drop);
  }

  lemma WithoutNothing(p: Props)
    ensures Without(p, {}) == p
  {
    FilterOutNothing(p.keys);
    assert Without(p, {}).entries == p.entries;
  }

  lemma WithoutTwice(p: Props, a: set<string>, b: set<string>)
    ensures Without(Without(p, a), b) == Without(p, a + b)
  {
    FilterOutTwice(p.keys, a, b);
    assert Without(Without(p, a), b).entries == Without(p, a + b).entries;
  }

  /** The entry for `k` is the same in both maps, or absent from both. */
  predicate SameAt(e1: map<string, Entry>, e2: map<string, Entry>, k: string)
  {
    (k in e1 <==> k in e2) && (k in e1 ==> e1[k] == e2[k])
  }

  // ---------------------------------------------------------------- import

  /** importProperties: the parsed keys in first-seen order, with the value each ends up with. */
  datatype ImportTable = ImportTable(keys: seq<string>, values: map<string, string>)

  ghost predicate TableValid(t: ImportTable)
  {
    Distinct(t.keys) && forall k :: k in t.values <==> k in t.keys
  }

  /** `importProperties[key] = value`: a new key goes last, an existing one keeps its place. */
  function Put(t: ImportTable, key: string, value: string): ImportTable
  {
    if key in t.values then ImportTable(t.keys, t.values[key := value])
    else ImportTable(t.keys + [key], t.values[key := value])
  }

  /** A line that splits on '=' into exactly two parts gives its trimmed key and value. */
  function ParseLine(line: string): (r: Option<(string, string)>)
    ensures r.Some? <==> Occurrences(line, '=') == 1
  {
    SplitCount(line, '=');
    var parts := SplitOn(line, {'='});
    if |parts| == 2 then Some((Trim(parts[0]), Trim(parts[1]))) else None
  }

  /** The table the lines give, each usable line in turn. */
  function ParseLines(lines: seq<string>): (t: ImportTable)
    ensures TableValid(t)
    decreases |lines|
  {
    if |lines| == 0 then ImportTable([], map[])
    else
      var t := ParseLines(lines[..|lines| - 1]);
      var pair := ParseLine(lines[|lines| - 1]);
      if pair.Some? then Put(t, pair.value.0, pair.value.1) else t
  }

  /** A key no usable line names is not in the table. */
  lemma {:induction false} ParseLinesAbsent(lines: seq<string>, key: string)
    requires forall i :: 0 <= i < |lines| ==> ParseLine(lines[i]).None? || ParseLine(lines[i]).value.0 != key
    ensures key !in ParseLines(lines).values
    decreases |lines|
  {
    if |lines| != 0 {
      ParseLinesAbsent(lines[..|lines| - 1], key);
    }
  }

  /** The last usable line naming a key decides its value: later lines overwrite earlier ones. */
  lemma {:induction false} ParseLinesLastWins(lines: seq<string>, i: nat, key: string, value: string)
    requires i < |lines| && ParseLine(lines[i]) == Some((key, value))
    requires forall j :: i < j < |lines| ==> ParseLine(lines[j]).None? || ParseLine(lines[j]).value.0 != key
    ensures key in ParseLines(lines).values && ParseLines(lines).values[key] == value
    decreases |lines|
  {
    var init := lines[..|lines| - 1];
    if i < |lines| - 1 {
      assert init[i] == lines[i];
      ParseLinesLastWins(init, i, key, value);
      ParseLinesOtherKey(lines, key);
    }
  }

  /** A last line that does not name `key` leaves its value as the earlier lines set it. */
  lemma ParseLinesOtherKey(lines: seq<string>, key: string)
    requires |lines| > 0
    requires ParseLine(lines[|lines| - 1]).None? || ParseLine(lines[|lines| - 1]).value.0 != key
    ensures var t0 := ParseLines(lines[..|lines| - 1]).values;
      var t1 := ParseLines(lines).values;
      (key in t1 <==> key in t0) && (key in t1 ==> t1[key] == t0[key])
  {
    var t := ParseLines(lines[..|lines| - 1]);
    var pair := ParseLine(lines[|lines| - 1]);
    if pair.Some? {
      assert ParseLines(lines) == Put(t, pair.value.0, pair.value.1);
    } else {
      assert ParseLines(lines) == t;
    }
  }


  /** The keys the paste removes: present, not reserved, and not in the text (keysToRemove not in importProperties). */
  function Dropped(keys: seq<string>, values: map<string, string>): set<string>
  {
    set k | k in keys && k !in RESERVED_KEYS && k !in values
  }

  /** The keys of `ks` the text does not name. */
  function AbsentAmong(ks: seq<string>, values: map<string, string>): set<string>
  {
    set k | k in ks && k !in values
  }

  lemma AbsentAmongStep(ks: seq<string>, i: nat, values: map<string, string>)
    requires i < |ks|
    ensures AbsentAmong(ks[..i + 1], values) == AbsentAmong(ks[..i], values) + (if ks[i] in values then {} else {ks[i]})
  {
    assert ks[..i + 1] == ks[..i] + [ks[i]];
  }

  /** One more key considered for removal: it is dropped too when the text does not name it. */
  lemma RemovalStep(p: Props, ks: seq<string>, i: nat, values: map<string, string>)
    requires i < |ks|
    ensures ks[i] in values ==> Without(p, AbsentAmong(ks[..i + 1], values)) == Without(p, AbsentAmong(ks[..i], values))
    ensures ks[i] !in values ==>
      Without(p, AbsentAmong(ks[..i + 1], values)) == Without(Without(p, AbsentAmong(ks[..i], values)), {ks[i]})
  {
    var removed := AbsentAmong(ks[..i], values);
    AbsentAmongStep(ks, i, values);
    if ks[i] in values {
      assert AbsentAmong(ks[..i + 1], values) == removed;
    } else {
      WithoutTwice(p, removed, {ks[i]});
      assert AbsentAmong(ks[..i + 1], values) == removed + {ks[i]};
    }
  }

  /** The non-reserved keys the text does not name are the dropped ones. */
  lemma AbsentAmongKept(keys: seq<string>, values: map<string, string>)
    ensures AbsentAmong(FilterOut(keys, RESERVED_KEYS), values) == Dropped(keys, values)
  {
  }

  /** One parsed pair applied to the dictionary. */
  function ApplyImport(p: Props, key: string, value: string, parseFloat: FloatParser): Props
  {
    if key in RESERVED_KEYS then p
    else if key in p.entries then
      match p.entries[key]
      case Property(current) =>
        (match Updated(current, value, parseFloat)
         case Some(v) => Props(p.keys, p.entries[key := Property(v)])
         case None => p)
      case Plain(_) => p
    else Props(p.keys + [key], p.entries[key := Property(Infer(value, parseFloat))])
  }

  /** The first `n` parsed pairs applied in table order. */
  function ApplyImports(p: Props, table: ImportTable, n: nat, parseFloat: FloatParser): Props
    requires TableValid(table) && n <= |table.keys|
    decreases n
  {
    if n == 0 then p
    else
      var key := table.keys[n - 1];
      ApplyImport(ApplyImports(p, table, n - 1, parseFloat), key, table.values[key], parseFloat)
  }

  /** The table ImportProperties builds from the text. */
  function ImportTableOf(text: string): (t: ImportTable)
    ensures TableValid(t)
  {
    ParseLines(SplitLines(text))
  }

  /** The dictionary after ImportProperties. */
  function ImportResult(p: Props, text: string, parseFloat: FloatParser): Props
  {
    if text == "" then p
    else
      var table := ImportTableOf(text);
      ApplyImports(Without(p, Dropped(p.keys, table.values)), table, |table.keys|, parseFloat)
  }

  /**
   * What a paste leaves under a key, stated key by key: a reserved key keeps its entry; a key the text
   * does not name is gone; a new key holds an inferred property; an existing bare value is untouched;
   * an existing property holds the converted value, or its old one when the conversion failed.
   */
  function Outcome(p: Props, table: ImportTable, k: string, parseFloat: FloatParser): Option<Entry>
  {
    if k in RESERVED_KEYS then (if k in p.entries then Some(p.entries[k]) else None)
    else if k !in table.values then None
    else if k !in p.entries then Some(Property(Infer(table.values[k], parseFloat)))
    else match p.entries[k]
      case Plain(_) => Some(p.entries[k])
      case Property(current) =>
        Some(Property(match Updated(current, table.values[k], parseFloat) case Some(v) => v case None => current))
  }

  /** Applying a pair for another key leaves `k` alone. */
  lemma ApplyImportOther(p: Props, key: string, value: string, k: string, parseFloat: FloatParser)
    requires key != k
    ensures SameAt(ApplyImport(p, key, value, parseFloat).entries, p.entries, k)
  {
  }

  /** What a pair does to its key depends only on that key's entry. */
  lemma ApplyImportLocal(p: Props, q: Props, k: string, value: string, parseFloat: FloatParser)
    requires SameAt(p.entries, q.entries, k)
    ensures SameAt(ApplyImport(p, k, value, parseFloat).entries, ApplyImport(q, k, value, parseFloat).entries, k)
  {
  }

  /** A prefix one longer is the shorter prefix and the next key. */
  lemma PrefixStep(ks: seq<string>, n: nat)
    requires 0 < n <= |ks|
    ensures ks[..n] == ks[..n - 1] + [ks[n - 1]]
    ensures forall k :: k in ks[..n] <==> k in ks[..n - 1] || k == ks[n - 1]
  {
    assert ks[..n] == ks[..n - 1] + [ks[n - 1]];
  }

  /** The first `n` pairs leave a key that is not among them untouched. */
  lemma {:induction false} ApplyImportsOthers(p: Props, table: ImportTable, n: nat, k: string, parseFloat: FloatParser)
    requires TableValid(table) && n <= |table.keys| && k !in table.keys[..n]
    ensures SameAt(ApplyImports(p, table, n, parseFloat).entries, p.entries, k)
    decreases n
  {
    if n != 0 {
      var key := table.keys[n - 1];
      PrefixStep(table.keys, n);
      ApplyImportsOthers(p, table, n - 1, k, parseFloat);
      ApplyImportOther(ApplyImports(p, table, n - 1, parseFloat), key, table.values[key], k, parseFloat);
    }
  }

  /** After the first `n` pairs, a key among them is as its own pair left it. */
  lemma {:induction false} ApplyImportsAt(p: Props, table: ImportTable, n: nat, k: string, parseFloat: FloatParser)
    requires TableValid(table) && n <= |table.keys| && k in table.keys[..n]
    ensures SameAt(ApplyImports(p, table, n, parseFloat).entries, ApplyImport(p, k, table.values[k], parseFloat).entries, k)
    decreases n
  {
    var key := table.keys[n - 1];
    PrefixStep(table.keys, n);
    if key == k {
      ApplyImportsLast(p, table, n, parseFloat);
    } else {
      var before := ApplyImports(p, table, n - 1, parseFloat);
      ApplyImportsAt(p, table, n - 1, k, parseFloat);
      ApplyImportOther(before, key, table.values[key], k, parseFloat);
      assert ApplyImports(p, table, n, parseFloat) == ApplyImport(before, key, table.values[key], parseFloat);
    }
  }

  /** The pair applied last acts on its key as if it were applied alone, since no earlier pair names that key. */
  lemma ApplyImportsLast(p: Props, table: ImportTable, n: nat, parseFloat: FloatParser)
    requires TableValid(table) && 0 < n <= |table.keys|
    ensures var k := table.keys[n - 1];
      SameAt(ApplyImports(p, table, n, parseFloat).entries, ApplyImport(p, k, table.values[k], parseFloat).entries, k)
  {
    var k := table.keys[n - 1];
    assert k !in table.keys[..n - 1];
    ApplyImportsOthers(p, table, n - 1, k, parseFloat);
    ApplyImportLocal(ApplyImports(p, table, n - 1, parseFloat), p, k, table.values[k], parseFloat);
  }

  /** Every pair applied keeps the dictionary well formed. */
  lemma {:induction false} ApplyImportsValid(p: Props, table: ImportTable, n: nat, parseFloat: FloatParser)
    requires TableValid(table) && n <= |table.keys| && PropsValid(p)
    ensures PropsValid(ApplyImports(p, table, n, parseFloat))
    decreases n
  {
    if n != 0 {
      ApplyImportsValid(p, table, n - 1, parseFloat);
    }
  }

  /** The paste, key by key, is exactly Outcome. */
  lemma ImportByKey(p: Props, text: string, parseFloat: FloatParser, k: string)
    requires PropsValid(p) && text != ""
    ensures var r := ImportResult(p, text, parseFloat);
      var o := Outcome(p, ImportTableOf(text), k, parseFloat);
      (k in r.entries <==> o.Some?) && (k in r.entries ==> r.entries[k] == o.value)
  {
    var table := ImportTableOf(text);
    var removed := Without(p, Dropped(p.keys, table.values));
    assert table.keys[..|table.keys|] == table.keys;
    assert k in Dropped(p.keys, table.values) <==> k in p.entries && k !in RESERVED_KEYS && k !in table.values;
    WithoutAt(p, Dropped(p.keys, table.values), k);
    if k in table.values {
      ApplyImportsAt(removed, table, |table.keys|, k, parseFloat);
      assert SameAt(removed.entries, p.entries, k);
      ApplyImportLocal(removed, p, k, table.values[k], parseFloat);
    } else {
      ApplyImportsOthers(removed, table, |table.keys|, k, parseFloat);
    }
  }

  /** A paste keeps the dictionary well formed. */
  lemma ImportValid(p: Props, text: string, parseFloat: FloatParser)
    requires PropsValid(p)
    ensures PropsValid(ImportResult(p, text, parseFloat))
  {
    if text != "" {
      var table := ImportTableOf(text);
      WithoutValid(p, Dropped(p.keys, table.values));
      ApplyImportsValid(Without(p, Dropped(p.keys, table.values)), table, |table.keys|, parseFloat);
    }
  }

  /** The placement keys survive every paste unchanged, whatever the text says about them. */
  lemma ReservedKeysUntouched(p: Props, text: string, parseFloat: FloatParser, k: string)
    requires PropsValid(p) && k in RESERVED_KEYS
    ensures SameAt(ImportResult(p, text, parseFloat).entries, p.entries, k)
  {
    if text != "" {
      ImportByKey(p, text, parseFloat, k);
    }
  }

  // ---------------------------------------------------------------- copy then paste

  /** Text that survives a line of the clipboard intact: no '=', no line break, no surrounding white space. */
  predicate Clean(s: string)
  {
    NoneOf(s, {'=', '\r', '\n'}) && Trim(s) == s
  }

  /** An entry whose rendering reads back as itself, or at least leaves it in place. */
  predicate ValueClean(e: Entry, parseFloat: FloatParser)
  {
    Clean(Render(e.value)) &&
    (e.Property? ==>
      var u := Updated(e.value, Render(e.value), parseFloat);
      u == Some(e.value) || u.None?)
  }

  /** Pasting the line a copy wrote for a clean key and value gives that key and value back. */
  lemma ParseExportLine(key: string, text: string)
    requires Clean(key) && Clean(text)
    ensures ParseLine(key + "=" + text) == Some((key, text))
  {
    assert NoneOf(key, {'='});
    assert NoneOf(text, {'='});
    SplitOnNone(text, {'='});
    assert key + "=" + text == key + ['='] + text;
    SplitOnPiece(key, '=', text, {'='});
  }

  /** Copy-condition on a whole dictionary: every exported key and value is clean. */
  predicate ExportClean(p: Props, parseFloat: FloatParser)
    requires forall k :: k in p.keys ==> k in p.entries
  {
    forall k :: k in p.entries && Exported(k, p.entries[k]) ==> Clean(k) && ValueClean(p.entries[k], parseFloat)
  }

  /** The exported lines are non-empty and hold no line break. */
  lemma ExportLinesShape(keys: seq<string>, entries: map<string, Entry>)
    requires forall k :: k in keys ==> k in entries
    requires forall k :: k in entries && Exported(k, entries[k]) ==> Clean(k) && Clean(Render(entries[k].value))
    ensures forall i :: 0 <= i < |ExportLines(keys, entries)| ==>
      ExportLines(keys, entries)[i] != "" && NoneOf(ExportLines(keys, entries)[i], {'\r', '\n'})
    decreases |keys|
  {
    if |keys| != 0 {
      ExportLinesShape(keys[..|keys| - 1], entries);
      var key := keys[|keys| - 1];
      if Exported(key, entries[key]) {
        var line := ExportLine(key, entries[key]);
        assert line == key + "=" + Render(entries[key].value);
        assert NoneOf(line, {'\r', '\n'});
      }
    }
  }

  /** The table holds, for each exported key, its rendered value, and nothing else. */
  ghost predicate IsExportTable(t: ImportTable, keys: seq<string>, entries: map<string, Entry>)
    requires forall k :: k in keys ==> k in entries
  {
    forall k :: (k in t.values <==> k in keys && Exported(k, entries[k])) &&
      (k in t.values ==> t.values[k] == Render(entries[k].value))
  }

  /** Pasting the lines of a copy yields the export table. */
  lemma {:induction false} ExportTable(keys: seq<string>, entries: map<string, Entry>)
    requires Distinct(keys) && forall k :: k in keys ==> k in entries
    requires forall k :: k in entries && Exported(k, entries[k]) ==> Clean(k) && Clean(Render(entries[k].value))
    ensures IsExportTable(ParseLines(ExportLines(keys, entries)), keys, entries)
    decreases |keys|
  {
    if |keys| != 0 {
      var init := keys[..|keys| - 1];
      var key := keys[|keys| - 1];
      assert keys == init + [key];
      assert key !in init;
      assert Distinct(init);
      ExportTable(init, entries);
      var lines := ExportLines(init, entries);
      var t := ParseLines(lines);
      if Exported(key, entries[key]) {
        var line := ExportLine(key, entries[key]);
        var value := Render(entries[key].value);
        ParseExportLine(key, value);
        assert ExportLines(keys, entries) == lines + [line];
        assert (lines + [line])[..|lines|] == lines;
        assert ParseLines(lines + [line]) == Put(t, key, value);
        assert key !in t.values;
      } else {
        assert ExportLines(keys, entries) == lines;
      }
    }
  }

  /** The entries a copy-then-paste keeps: all but the non-reserved bare lists. */
  function WithoutLists(entries: map<string, Entry>): map<string, Entry>
  {
    map k | k in entries && !(k !in RESERVED_KEYS && IsList(entries[k])) :: entries[k]
  }

  /** One key of the round trip: pasting the export table leaves it as WithoutLists says. */
  lemma RoundTripAt(p: Props, text: string, parseFloat: FloatParser, k: string)
    requires PropsValid(p) && ExportClean(p, parseFloat) && text != ""
    requires IsExportTable(ImportTableOf(text), p.keys, p.entries)
    ensures SameAt(ImportResult(p, text, parseFloat).entries, WithoutLists(p.entries), k)
  {
    var table := ImportTableOf(text);
    ImportByKey(p, text, parseFloat, k);
    assert k in table.values <==> k in p.entries && Exported(k, p.entries[k]);
    if k in table.values && k !in RESERVED_KEYS {
      assert ValueClean(p.entries[k], parseFloat);
    }
  }

  /**
   * Copying a dictionary and pasting the text back into it changes nothing, except that bare list
   * values, which the copy skips, are removed by the paste (unless the copy was empty, which the paste
   * ignores). This holds when every exported key and value is clean.
   */
  lemma CopyPasteRoundTrip(p: Props, parseFloat: FloatParser)
    requires PropsValid(p) && ExportClean(p, parseFloat)
    ensures var text := ExportText(p.keys, p.entries);
      ImportResult(p, text, parseFloat).entries == if text == "" then p.entries else WithoutLists(p.entries)
  {
    var text := ExportText(p.keys, p.entries);
    if text != "" {
      var lines := ExportLines(p.keys, p.entries);
      ExportLinesShape(p.keys, p.entries);
      SplitJoinLines(lines);
      ExportTable(p.keys, p.entries);
      assert ImportTableOf(text) == ParseLines(lines);
      var r := ImportResult(p, text, parseFloat);
      forall k
        ensures SameAt(r.entries, WithoutLists(p.entries), k)
      {
        RoundTripAt(p, text, parseFloat, k);
      }
      SameEverywhere(r.entries, WithoutLists(p.entries));
    }
  }

  /** Maps that agree at every key are equal. */
  lemma SameEverywhere(e1: map<string, Entry>, e2: map<string, Entry>)
    requires forall k :: SameAt(e1, e2, k)
    ensures e1 == e2
  {
    forall k
      ensures k in e1 <==> k in e2
    {
      assert SameAt(e1, e2, k);
    }
    forall k | k in e1
      ensures e1[k] == e2[k]
    {
      assert SameAt(e1, e2, k);
    }
  }

  /** An integer's rendering holds only a sign and digits, so it is clean. */
  lemma FormatIntegerClean(v: int)
    ensures Clean(FormatInteger(v)) && FormatInteger(v) != "null"
  {
    var s := FormatInteger(v);
    if v < 0 {
      var d := Digits(-v);
      assert s == "-" + d;
      assert forall j :: 1 <= j < |s| ==> s[j] == d[j - 1];
    }
    assert forall j :: 0 <= j < |s| ==> s[j] == '-' || IsDigit(s[j]);
    TrimBothNoop(s, IsWhiteSpace);
  }

  /** A value whose clean rendering converts back to it under its own type reads back as itself. */
  lemma ConvertsBack(v: Value, parseFloat: FloatParser)
    requires v != Null && Clean(Render(v)) && Render(v) != "null"
    requires ConvertValue(Render(v), TypeOf(v), parseFloat) == v
    ensures ValueClean(Property(v), parseFloat) && ValueClean(Plain(v), parseFloat)
    ensures Updated(v, Render(v), parseFloat) == Some(v)
  {
  }

  /** An integer value whose type parses its own rendering back to it reads back as itself. */
  lemma IntegerConvertsBack(v: Value, n: int, lo: int, hi: int, parseFloat: FloatParser)
    requires v != Null && Render(v) == FormatInteger(n) && lo <= n <= hi
    requires ParseInteger(FormatInteger(n), lo, hi) == Some(n) ==> ConvertValue(FormatInteger(n), TypeOf(v), parseFloat) == v
    ensures ValueClean(Property(v), parseFloat) && ValueClean(Plain(v), parseFloat)
    ensures Updated(v, Render(v), parseFloat) == Some(v)
  {
    FormatIntegerClean(n);
    IntegerRoundTrip(n, lo, hi);
    ConvertsBack(v, parseFloat);
  }

  lemma Int32ValueClean(n: Int32, parseFloat: FloatParser)
    ensures ConvertValue(Render(Int(n)), IntType, parseFloat) == Int(n)
    ensures ValueClean(Property(Int(n)), parseFloat) && Updated(Int(n), Render(Int(n)), parseFloat) == Some(Int(n))
  {
    IntegerRoundTrip(n, INT32_MIN, INT32_MAX);
    IntegerConvertsBack(Int(n), n, INT32_MIN, INT32_MAX, parseFloat);
  }

  lemma UInt32ValueClean(n: UInt32, parseFloat: FloatParser)
    ensures ConvertValue(Render(UInt(n)), UIntType, parseFloat) == UInt(n)
    ensures ValueClean(Property(UInt(n)), parseFloat) && Updated(UInt(n), Render(UInt(n)), parseFloat) == Some(UInt(n))
  {
    IntegerRoundTrip(n, 0, UINT32_MAX);
    IntegerConvertsBack(UInt(n), n, 0, UINT32_MAX, parseFloat);
  }

  lemma Int64ValueClean(n: Int64, parseFloat: FloatParser)
    ensures ConvertValue(Render(Long(n)), LongType, parseFloat) == Long(n)
    ensures ValueClean(Property(Long(n)), parseFloat) && Updated(Long(n), Render(Long(n)), parseFloat) == Some(Long(n))
  {
    IntegerRoundTrip(n, INT64_MIN, INT64_MAX);
    IntegerConvertsBack(Long(n), n, INT64_MIN, INT64_MAX, parseFloat);
  }

  lemma UInt64ValueClean(n: UInt64, parseFloat: FloatParser)
    ensures ConvertValue(Render(ULong(n)), ULongType, parseFloat) == ULong(n)
    ensures ValueClean(Property(ULong(n)), parseFloat) && Updated(ULong(n), Render(ULong(n)), parseFloat) == Some(ULong(n))
  {
    IntegerRoundTrip(n, 0, UINT64_MAX);
    IntegerConvertsBack(ULong(n), n, 0, UINT64_MAX, parseFloat);
  }

  /** An integer property reads back as itself, at every width. */
  lemma IntegerValueClean(v: Value, parseFloat: FloatParser)
    requires v.Int? || v.UInt? || v.Long? || v.ULong?
    ensures ConvertValue(Render(v), TypeOf(v), parseFloat) == v
    ensures ValueClean(Property(v), parseFloat) && Updated(v, Render(v), parseFloat) == Some(v)
  {
    match v {
      case Int(n) => Int32ValueClean(n, parseFloat);
      case UInt(n) => UInt32ValueClean(n, parseFloat);
      case Long(n) => Int64ValueClean(n, parseFloat);
      case ULong(n) => UInt64ValueClean(n, parseFloat);
    }
  }

  /** A boolean property reads back as itself. */
  lemma BoolValueClean(b: bool, parseFloat: FloatParser)
    ensures ConvertValue(Render(Bool(b)), BoolType, parseFloat) == Bool(b)
    ensures ValueClean(Property(Bool(b)), parseFloat) && ValueClean(Plain(Bool(b)), parseFloat)
    ensures Updated(Bool(b), Render(Bool(b)), parseFloat) == Some(Bool(b))
  {
    var s := FormatBool(b);
    assert Clean(s) by {
      assert NoneOf(s, {'=', '\r', '\n'});
      TrimBothNoop(s, IsWhiteSpace);
    }
    BoolRoundTrip(b);
    assert ConvertValue(s, BoolType, parseFloat) == Bool(b);
    ConvertsBack(Bool(b), parseFloat);
  }

  /** A null property reads back as null. */
  lemma NullValueClean(parseFloat: FloatParser)
    ensures ValueClean(Property(Null), parseFloat) && ValueClean(Plain(Null), parseFloat)
  {
    assert NoneOf("null", {'=', '\r', '\n'});
    TrimBothNoop("null", IsWhiteSpace);
  }

  /** A clean string reads back as itself, except the string "null", which comes back as null. */
  lemma StringValueClean(s: string, parseFloat: FloatParser)
    requires Clean(s)
    ensures s != "null" ==> Updated(Str(s), Render(Str(s)), parseFloat) == Some(Str(s))
    ensures s == "null" ==> Updated(Str(s), Render(Str(s)), parseFloat) == Some(Null)
  {
  }

  // ---------------------------------------------------------------- the dictionary object

  /** The caller's IDictionary<string, dynamic>, which the paste changes in place. */
  class PropertyDictionary {
    var keys: seq<string>
    var entries: map<string, Entry>

    ghost predicate Valid()
      reads this
    {
      PropsValid(Props(keys, entries))
    }

    constructor (keys: seq<string>, entries: map<string, Entry>)
      requires PropsValid(Props(keys, entries))
      ensures Valid() && this.keys == keys && this.entries == entries
    {
      this.keys := keys;
      this.entries := entries;
    }

    /** Dictionary.Remove. */
    method Remove(key: string)
      requires Valid()
      modifies this
      ensures Valid()
      ensures Props(keys, entries) == Without(old(Props(keys, entries)), {key})
    {
      var rest := Without(Props(keys, entries), {key});
      WithoutValid(Props(keys, entries), {key});
      keys := rest.keys;
      entries := rest.entries;
    }

    /** Dictionary.Add of a key not yet present; it is enumerated last. */
    method Add(key: string, e: Entry)
      requires Valid() && key !in entries
      modifies this
      ensures Valid()
      ensures keys == old(keys) + [key] && entries == old(entries)[key := e]
    {
      keys := keys + [key];
      entries := entries[key := e];
    }

    /** `prop.Value = v` on the property stored under `key`. */
    method SetValue(key: string, v: Value)
      requires Valid() && key in entries && entries[key].Property?
      modifies this
      ensures Valid()
      ensures keys == old(keys) && entries == old(entries)[key := Property(v)]
    {
      entries := entries[key := Property(v)];
    }
  }

  // ---------------------------------------------------------------- the clipboard operations

  /** CopyProperties: the text put on the clipboard. */
  method CopyProperties(properties: PropertyDictionary) returns (text: string)
    requires properties.Valid()
    ensures text == ExportText(properties.keys, properties.entries)
  {
    var keys := properties.keys;
    var entries := properties.entries;
    text := "";
    for i := 0 to |keys|
      invariant text == JoinLines(ExportLines(keys[..i], entries))
    {
      assert keys[..i + 1][..i] == keys[..i];
      var key := keys[i];
      var e := entries[key];
      assert ExportLines(keys[..i + 1], entries) ==
        ExportLines(keys[..i], entries) + (if Exported(key, e) then [ExportLine(key, e)] else []);
      if key in RESERVED_KEYS {
        assert ExportLines(keys[..i + 1], entries) == ExportLines(keys[..i], entries);
        continue;
      }
      if IsList(e) {
        assert ExportLines(keys[..i + 1], entries) == ExportLines(keys[..i], entries);
        continue;
      }
      var line := key + "=" + Render(e.value);
      JoinLinesSnoc(ExportLines(keys[..i], entries), line);
      text := text + line + NEW_LINE;
    }
    assert keys[..|keys|] == keys;
  }

  /** The table-building loop of ImportProperties. */
  method CollectImports(lines: seq<string>) returns (importKeys: seq<string>, importValues: map<string, string>)
    ensures ImportTable(importKeys, importValues) == ParseLines(lines)
  {
    importKeys := [];
    importValues := map[];
    for i := 0 to |lines|
      invariant ImportTable(importKeys, importValues) == ParseLines(lines[..i])
    {
      assert lines[..i + 1][..i] == lines[..i];
      var parts := SplitOn(lines[i], {'='});
      if |parts| == 2 {
        var key := Trim(parts[0]);
        var value := Trim(parts[1]);
        if key !in importValues {
          importKeys := importKeys + [key];
        }
        importValues := importValues[key := value];
      }
    }
    assert lines[..|lines|] == lines;
  }

  /** The removal loop of ImportProperties: every non-reserved key the text does not name is removed. */
  method RemoveAbsent(properties: PropertyDictionary, importValues: map<string, string>)
    requires properties.Valid()
    modifies properties
    ensures properties.Valid()
    ensures Props(properties.keys, properties.entries) ==
      Without(old(Props(properties.keys, properties.entries)), Dropped(old(properties.keys), importValues))
  {
    ghost var p0 := Props(properties.keys, properties.entries);
    var keysToRemove := FilterOut(properties.keys, RESERVED_KEYS);
    WithoutNothing(p0);
    assert AbsentAmong(keysToRemove[..0], importValues) == {};
    for i := 0 to |keysToRemove|
      invariant properties.Valid()
      invariant Props(properties.keys, properties.entries) == Without(p0, AbsentAmong(keysToRemove[..i], importValues))
    {
      var key := keysToRemove[i];
      RemovalStep(p0, keysToRemove, i, importValues);
      if key !in importValues {
        properties.Remove(key);
      }
    }
    assert keysToRemove[..|keysToRemove|] == keysToRemove;
    AbsentAmongKept(p0.keys, importValues);
  }

  /** The body of the import loop of ImportProperties: one parsed pair merged into the dictionary. */
  method ImportOne(properties: PropertyDictionary, key: string, value: string, parseFloat: FloatParser)
    requires properties.Valid()
    modifies properties
    ensures properties.Valid()
    ensures Props(properties.keys, properties.entries) ==
      ApplyImport(old(Props(properties.keys, properties.entries)), key, value, parseFloat)
  {
    if key in RESERVED_KEYS {
      return;
    }
    if key in properties.entries {
      var prop := properties.entries[key];
      if prop.Property? {
        var currentValue := prop.value;
        var convertedValue: Value;
        if value == "null" {
          convertedValue := Null;
        } else if currentValue != Null {
          convertedValue := ConvertValue(value, TypeOf(currentValue), parseFloat);
        } else {
          convertedValue := Infer(value, parseFloat);
        }
        if convertedValue != Null || value == "null" {
          properties.SetValue(key, convertedValue);
        }
      }
    } else {
      properties.Add(key, Property(Infer(value, parseFloat)));
    }
  }

  /** ImportProperties: merges the pasted text into the dictionary. */
  method ImportProperties(properties: PropertyDictionary, text: string, parseFloat: FloatParser)
    requires properties.Valid()
    modifies properties
    ensures properties.Valid()
    ensures text == "" ==> properties.keys == old(properties.keys) && properties.entries == old(properties.entries)
    ensures Props(properties.keys, properties.entries) ==
      ImportResult(old(Props(properties.keys, properties.entries)), text, parseFloat)
  {
    if text == "" {
      return;
    }
    ghost var p0 := Props(properties.keys, properties.entries);
    var lines := SplitLines(text);
    var importKeys, importValues := CollectImports(lines);
    ghost var table := ImportTable(importKeys, importValues);
    assert table == ImportTableOf(text);
    RemoveAbsent(properties, importValues);
    ghost var removed := Props(properties.keys, properties.entries);
    assert removed == Without(p0, Dropped(p0.keys, table.values));
    for i := 0 to |importKeys|
      invariant properties.Valid()
      invariant Props(properties.keys, properties.entries) == ApplyImports(removed, table, i, parseFloat)
    {
      var key := importKeys[i];
      ImportOne(properties, key, importValues[key], parseFloat);
    }
  }

}
