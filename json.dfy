/**
 * The `Json` value and its readers (Prelude/Json.swift). A `JsonReader<R>` is a `Reader` whose
 * source is `Json`. The `Double` payload of a number is kept opaque (its 64 bits), and the
 * number comparison used by `==` is a parameter, because IEEE equality (NaN) is not modelled.
 */
module JsonReading {
  import opened Optional
  import opened StatusMonad
  import opened ReaderMonad

  /** An IEEE double, known only by its bit pattern. */
  datatype Double = Double(bits: bv64)

  datatype Json =
    | Null
    | Text(text: string)
    | Number(number: Double)
    | Boolean(boolean: bool)
    | Object(fields: map<string, Json>)
    | List(items: seq<Json>)

  type JsonReader<R> = Reader<Json, R>

  /** `isNull`. */
  function IsNull(json: Json): (b: bool)
    ensures b <==> json == Null
  {
    json.Null?
  }

  /** `Json.string`. */
  function StringReader(): JsonReader<string> {
    Reader((json: Json) =>
      match json
      case Text(s) => Ok(s)
      case _ => Err(JsonReaderError("expected string")))
  }

  /** `Json.bool`. */
  function BoolReader(): JsonReader<bool> {
    Reader((json: Json) =>
      match json
      case Boolean(b) => Ok(b)
      case _ => Err(JsonReaderError("expected bool")))
  }

  /** `Json.dictionary(key:)`. */
  function DictionaryReader(key: string): JsonReader<Json> {
    Reader((json: Json) =>
      match json
      case Object(fields) =>
        if key in fields then Ok(fields[key])
        else Err(JsonReaderError("key: " + key + " not found"))
      case _ => Err(JsonReaderError("expected object")))
  }

  /** `Json.array(at:)`. */
  function ArrayReader(index: int): JsonReader<Json> {
    Reader((json: Json) =>
      match json
      case List(items) =>
        if 0 <= index < |items| then Ok(items[index])
        else Err(JsonReaderError("index: " + IntString(index) + " out of bounds"))
      case _ => Err(JsonReaderError("expected array")))
  }

  /** `reader.optional`: a failure to read becomes nil. */
  function OptionalReader<R>(r: JsonReader<R>): JsonReader<Option<R>> {
    Reader((json: Json) =>
      match r.read(json)
      case Ok(v) => Ok(Some(v))
      case Err(_) => Ok(None))
  }

  /** `reader.nullable`: `null` reads as nil; anything else is read by the inner reader. */
  function NullableReader<R>(r: JsonReader<R>): JsonReader<Option<R>> {
    Reader((json: Json) =>
      if IsNull(json) then Ok(None)
      else
        match r.read(json)
        case Ok(v) => Ok(Some(v))
        case Err(e) => Err(e))
  }

  /** `string` reads exactly the payload of a text value, and fails on every other case. */
  lemma StringReaderReadsText(json: Json, s: string)
    ensures Reading(StringReader(), Text(s)) == Ok(s)
    ensures Reading(StringReader(), json) == Ok(s) <==> json == Text(s)
    ensures !json.Text? ==> Reading(StringReader(), json) == Err(JsonReaderError("expected string"))
  {
  }

  /** `bool` reads exactly the payload of a boolean value, and fails on every other case. */
  lemma BoolReaderReadsBoolean(json: Json, b: bool)
    ensures Reading(BoolReader(), Boolean(b)) == Ok(b)
    ensures Reading(BoolReader(), json) == Ok(b) <==> json == Boolean(b)
    ensures !json.Boolean? ==> Reading(BoolReader(), json) == Err(JsonReaderError("expected bool"))
  {
  }

  /** `dictionary(key:)` succeeds exactly on an object holding the key, with that key's value;
      it reports a non-object and a missing key with different messages. */
  lemma DictionaryReaderLooksUp(json: Json, key: string, fields: map<string, Json>, v: Json)
    ensures Reading(DictionaryReader(key), Object(fields[key := v])) == Ok(v)
    ensures Reading(DictionaryReader(key), json).Ok? <==> json.Object? && key in json.fields
    ensures Reading(DictionaryReader(key), json).Ok? ==>
      Reading(DictionaryReader(key), json).value == json.fields[key]
    ensures !json.Object? ==>
      Reading(DictionaryReader(key), json) == Err(JsonReaderError("expected object"))
    ensures json.Object? && key !in json.fields ==>
      Reading(DictionaryReader(key), json) == Err(JsonReaderError("key: " + key + " not found"))
  {
  }

  /** `array(at:)` succeeds exactly on a list whose bounds hold the index, with that item. */
  lemma ArrayReaderIndexes(json: Json, index: int)
    ensures Reading(ArrayReader(index), json).Ok? <==>
      json.List? && 0 <= index < |json.items|
    ensures Reading(ArrayReader(index), json).Ok? ==>
      Reading(ArrayReader(index), json).value == json.items[index]
    ensures !json.List? ==>
      Reading(ArrayReader(index), json) == Err(JsonReaderError("expected array"))
    ensures json.List? && !(0 <= index < |json.items|) ==>
      Reading(ArrayReader(index), json).error.message
        == "index: " + IntString(index) + " out of bounds"
  {
  }

  /** `optional` never fails, and reads nil exactly when the inner reader fails. */
  lemma OptionalNeverFails<R>(r: JsonReader<R>, json: Json)
    ensures Reading(OptionalReader(r), json).Ok?
    ensures Reading(OptionalReader(r), json).value.None? <==> Reading(r, json).Err?
    ensures Reading(r, json).Ok? ==>
      Reading(OptionalReader(r), json) == Ok(Some(Reading(r, json).value))
  {
  }

  /** `nullable` reads nil from `null` whatever the inner reader would do; elsewhere it reads
      what the inner reader reads and fails as it fails. */
  lemma NullableSkipsNull<R>(r: JsonReader<R>, r': JsonReader<R>, json: Json)
    ensures Reading(NullableReader(r), Null) == Ok(None) == Reading(NullableReader(r'), Null)
    ensures !IsNull(json) && Reading(r, json).Ok? ==>
      Reading(NullableReader(r), json) == Ok(Some(Reading(r, json).value))
    ensures !IsNull(json) && Reading(r, json).Err? ==>
      Reading(NullableReader(r), json) == Err(Reading(r, json).error)
  {
  }

  // Decimal rendering of an `Int`, as string interpolation writes it.

  function DigitChar(d: nat): char
    requires d < 10
  {
    ('0' as int + d) as char
  }

  function NatString(n: nat): string
    decreases n
  {
    if n < 10 then [DigitChar(n)] else NatString(n / 10) + [DigitChar(n % 10)]
  }

  function IntString(n: int): string {
    if n < 0 then "-" + NatString(-n) else NatString(n)
  }

  /** The value of a string of decimal digits. */
  function DecimalValue(s: string): int {
    if s == [] then 0 else DecimalValue(s[..|s| - 1]) * 10 + (s[|s| - 1] as int - '0' as int)
  }

  predicate IsDigit(c: char) {
    '0' <= c <= '9'
  }

  /** The rendering of a natural number is a nonempty string of digits that reads back as the
      number, with no leading zero. */
  lemma {:induction false} NatStringRoundTrip(n: nat)
    ensures |NatString(n)| > 0 && forall i | 0 <= i < |NatString(n)| :: IsDigit(NatString(n)[i])
    ensures DecimalValue(NatString(n)) == n
    ensures NatString(n)[0] == '0' ==> n == 0
  {
    if n >= 10 {
      NatStringRoundTrip(n / 10);
      var s := NatString(n);
      assert s[..|s| - 1] == NatString(n / 10);
    }
  }

  /** A negative index is rendered with a leading minus sign before the digits of its magnitude. */
  lemma IntStringRoundTrip(n: int)
    ensures n < 0 ==> IntString(n)[0] == '-' && DecimalValue(IntString(n)[1..]) == -n
    ensures n >= 0 ==> DecimalValue(IntString(n)) == n && IsDigit(IntString(n)[0])
  {
    if n < 0 {
      NatStringRoundTrip(-n);
      assert IntString(n)[1..] == NatString(-n);
    } else {
      NatStringRoundTrip(n);
    }
  }

  /** `==`, with the comparison of two doubles as a parameter. Two objects are equal when they
      have the same keys and equal values at every key; two lists when they have the same length
      and equal items at every index. */
  function Equal(a: Json, b: Json, numbersEqual: (Double, Double) -> bool): bool
    decreases a
  {
    match a
    case Null => b.Null?
    case Text(s) => b.Text? && s == b.text
    case Number(n) => b.Number? && numbersEqual(n, b.number)
    case Boolean(v) => b.Boolean? && v == b.boolean
    case Object(fields) =>
      b.Object? && fields.Keys == b.fields.Keys &&
      forall k | k in fields :: Equal(fields[k], b.fields[k], numbersEqual)
    case List(items) =>
      b.List? && |items| == |b.items| &&
      forall i | 0 <= i < |items| :: Equal(items[i], b.items[i], numbersEqual)
  }

  /** Values of different cases are never equal. */
  lemma EqualWithinCase(a: Json, b: Json, numbersEqual: (Double, Double) -> bool)
    ensures Equal(a, b, numbersEqual) ==>
      (a.Null? <==> b.Null?) && (a.Text? <==> b.Text?) && (a.Number? <==> b.Number?) &&
      (a.Boolean? <==> b.Boolean?) && (a.Object? <==> b.Object?) && (a.List? <==> b.List?)
  {
  }

  /** `==` is reflexive whenever number comparison is (so it fails only through a NaN). */
  lemma {:induction false} EqualReflexive(a: Json, numbersEqual: (Double, Double) -> bool)
    requires forall n :: numbersEqual(n, n)
    ensures Equal(a, a, numbersEqual)
    decreases a
  {
    match a
    case Object(fields) =>
      forall k | k in fields ensures Equal(fields[k], fields[k], numbersEqual) {
        EqualReflexive(fields[k], numbersEqual);
      }
    case List(items) =>
      forall i | 0 <= i < |items| ensures Equal(items[i], items[i], numbersEqual) {
        EqualReflexive(items[i], numbersEqual);
      }
    case _ =>
  }

  /** `==` is symmetric whenever number comparison is. */
  lemma {:induction false} EqualSymmetric(a: Json, b: Json, numbersEqual: (Double, Double) -> bool)
    requires forall m, n :: numbersEqual(m, n) == numbersEqual(n, m)
    ensures Equal(a, b, numbersEqual) == Equal(b, a, numbersEqual)
    decreases a
  {
    match a
    case Object(fields) =>
      if b.Object? && fields.Keys == b.fields.Keys {
        forall k | k in fields
          ensures Equal(fields[k], b.fields[k], numbersEqual) == Equal(b.fields[k], fields[k], numbersEqual)
        {
          EqualSymmetric(fields[k], b.fields[k], numbersEqual);
        }
      }
    case List(items) =>
      if b.List? && |items| == |b.items| {
        forall i | 0 <= i < |items|
          ensures Equal(items[i], b.items[i], numbersEqual) == Equal(b.items[i], items[i], numbersEqual)
        {
          EqualSymmetric(items[i], b.items[i], numbersEqual);
        }
      }
    case _ =>
  }

  /** Comparing doubles by their bits. */
  function SameBits(m: Double, n: Double): bool {
    m == n
  }

  /** With bitwise number comparison, `==` is exactly structural equality. */
  lemma {:induction false} EqualIsStructural(a: Json, b: Json)
    ensures Equal(a, b, SameBits) <==> a == b
    decreases a
  {
    if a == b {
      EqualReflexive(a, SameBits);
    } else {
      match a
      case Object(fields) =>
        if b.Object? && fields.Keys == b.fields.Keys {
          var k :| k in fields && fields[k] != b.fields[k];
          EqualIsStructural(fields[k], b.fields[k]);
        }
      case List(items) =>
        if b.List? && |items| == |b.items| {
          var i :| 0 <= i < |items| && items[i] != b.items[i];
          EqualIsStructural(items[i], b.items[i]);
        }
      case _ =>
    }
  }

  /** The array `traverse`: transform every element in order, giving up at the first nil. */
  method TraverseArray<E, M>(xs: seq<E>, transform: E -> Option<M>) returns (r: Option<seq<M>>)
    ensures r.None? <==> exists i | 0 <= i < |xs| :: transform(xs[i]).None?
    ensures r.Some? ==>
      |r.value| == |xs| && forall i | 0 <= i < |xs| :: transform(xs[i]) == Some(r.value[i])
  {
    var result: seq<M> := [];
    var i := 0;
    while i < |xs|
      invariant 0 <= i <= |xs| && |result| == i
      invariant forall j | 0 <= j < i :: transform(xs[j]) == Some(result[j])
    {
      var newElement := transform(xs[i]);
      if newElement.None? {
        return None;
      }
      result := result + [newElement.value];
      i := i + 1;
    }
    return Some(result);
  }

  /** The dictionary `traverse`: transform every value, in no particular key order, giving up at
      the first nil. */
  method TraverseDictionary<K, V, M>(d: map<K, V>, transform: V -> Option<M>)
    returns (r: Option<map<K, M>>)
    ensures r.None? <==> exists k | k in d :: transform(d[k]).None?
    ensures r.Some? ==>
      r.value.Keys == d.Keys && forall k | k in d :: transform(d[k]) == Some(r.value[k])
  {
    var result: map<K, M> := map[];
    var remaining := d.Keys;
    while remaining != {}
      invariant remaining <= d.Keys
      invariant result.Keys == d.Keys - remaining
      invariant forall k | k in result :: transform(d[k]) == Some(result[k])
      decreases remaining
    {
      var key :| key in remaining;
      var newValue := transform(d[key]);
      if newValue.None? {
        return None;
      }
      result := result[key := newValue.value];
      remaining := remaining - {key};
    }
    return Some(result);
  }
}
