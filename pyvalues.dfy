/** Python values as the client sees them: raised errors, decoded JSON, truthiness, `str()`,
    decimal text and the ISO-8601 text of timestamps. */
module PyValues {
  import opened Wrappers

  /** The exceptions the modelled code can raise. `ApiError` is the client's own `APIError`,
      carrying the HTTP status of the failed response. */
  datatype Error =
    | ValueError
    | KeyError
    | TypeError
    | AttributeError
    | IndexError
    | UnboundLocalError
    | JsonDecodeError
    | AssertionError
    | NotImplementedError
    | ApiError(status: int)

  /** A decoded JSON document (numbers restricted to integers). */
  datatype Json =
    | Null
    | Bool(b: bool)
    | Int(i: int)
    | Str(s: string)
    | Array(items: seq<Json>)
    | Object(fields: map<string, Json>)

  /** Python truthiness of the decoded value. */
  predicate Truthy(j: Json) {
    match j
    case Null => false
    case Bool(b) => b
    case Int(i) => i != 0
    case Str(s) => s != []
    case Array(items) => items != []
    case Object(fields) => fields != map[]
  }

  /** `data[key]` with a string key: the field of an object, `KeyError` when it is missing,
      `TypeError` on anything that is not an object. */
  function Subscript(data: Json, key: string): (r: Result<Json, Error>)
    ensures r.Success? <==> data.Object? && key in data.fields
    ensures r.Success? ==> r.value == data.fields[key]
    ensures !data.Object? ==> r == Failure(TypeError)
    ensures data.Object? && key !in data.fields ==> r == Failure(KeyError)
  {
    match data
    case Object(fields) => if key in fields then Success(fields[key]) else Failure(KeyError)
    case _ => Failure(TypeError)
  }

  predicate IsDigit(c: char) { '0' <= c <= '9' }

  function DigitChar(d: nat): (c: char)
    requires d < 10
    ensures IsDigit(c)
  {
    ('0' as int + d) as char
  }

  function DigitValue(c: char): nat
    requires IsDigit(c)
  {
    c as int - '0' as int
  }

  /** Decimal text of a natural number, as Python's `str(n)`. */
  function NatToText(n: nat): (r: string)
    ensures r != [] && forall i :: 0 <= i < |r| ==> IsDigit(r[i])
    decreases n
  {
    if n < 10 then [DigitChar(n)] else NatToText(n / 10) + [DigitChar(n % 10)]
  }

  /** Decimal text of an integer, as Python's `str(i)`. */
  function IntToText(i: int): (r: string)
    ensures r != [] && '/' !in r
  {
    if i < 0 then "-" + NatToText(-i) else NatToText(i)
  }

  /** The natural number a non-empty run of digits denotes. */
  function TextToNat(s: string): (r: Option<nat>)
    ensures r.Some? <==> s != [] && forall i :: 0 <= i < |s| ==> IsDigit(s[i])
  {
    if s == [] || !IsDigit(s[|s| - 1]) then None
    else if |s| == 1 then Some(DigitValue(s[0]))
    else match TextToNat(s[..|s| - 1])
      case None => None
      case Some(n) => Some(n * 10 + DigitValue(s[|s| - 1]))
  }

  /** The integer an optionally negated run of digits denotes. */
  function TextToInt(s: string): Option<int> {
    if s != [] && s[0] == '-' then
      match TextToNat(s[1..])
      case None => None
      case Some(n) => Some(0 - n as int)
    else
      match TextToNat(s)
      case None => None
      case Some(n) => Some(n)
  }

  lemma {:induction false} NatTextRoundTrip(n: nat)
    ensures TextToNat(NatToText(n)) == Some(n)
    decreases n
  {
    if n >= 10 {
      var prefix := NatToText(n / 10);
      var s := prefix + [DigitChar(n % 10)];
      assert s[..|s| - 1] == prefix;
      NatTextRoundTrip(n / 10);
    }
  }

  /** Reading back the text of an integer gives the integer. */
  lemma IntTextRoundTrip(i: int)
    ensures TextToInt(IntToText(i)) == Some(i)
  {
    if i < 0 {
      NatTextRoundTrip(-i);
      assert ("-" + NatToText(-i))[1..] == NatToText(-i);
    } else {
      NatTextRoundTrip(i);
    }
  }

  /** A text that may be `None`, as the JSON value it is sent as. */
  function TextOrNull(t: Option<string>): (r: Json)
    ensures t.None? <==> r == Null
    ensures t.Some? ==> r == Str(t.value)
  {
    match t
    case Some(text) => Str(text)
    case None => Null
  }

  /** Python's `str(x)` for the scalar JSON values; `None` for arrays and objects,
      whose `repr` text is not modelled. */
  function ScalarText(j: Json): (r: Option<string>)
    ensures r.None? <==> j.Array? || j.Object?
    ensures j.Str? ==> r == Some(j.s)
    ensures j.Null? ==> r == Some("None")
  {
    match j
    case Null => Some("None")
    case Bool(b) => Some(if b then "True" else "False")
    case Int(i) => Some(IntToText(i))
    case Str(s) => Some(s)
    case Array(_) => None
    case Object(_) => None
  }

  /** The text `str()` gives an integer reads back as that integer, and the text of a string
      is the string: a scalar's text loses nothing of an integer or a string. */
  lemma ScalarTextReadsBack(j: Json)
    ensures j.Int? ==> ScalarText(j).Some? && TextToInt(ScalarText(j).value) == Some(j.i)
    ensures j.Str? ==> ScalarText(j) == Some(j.s)
    ensures j.Bool? ==> ScalarText(j) == Some(if j.b then "True" else "False")
  {
    if j.Int? {
      IntTextRoundTrip(j.i);
    }
  }

  /** `datetime.isoformat()`: timestamps are whole seconds, written as their decimal text. */
  function IsoFormat(t: int): string {
    IntToText(t)
  }

  /** `datetime.fromisoformat(v)` on a decoded JSON value: `TypeError` on a non-string,
      `ValueError` on text that is not a timestamp. */
  function FromIsoFormat(v: Json): (r: Result<int, Error>)
    ensures !v.Str? ==> r == Failure(TypeError)
    ensures r.Failure? ==> r.error == TypeError || r.error == ValueError
  {
    match v
    case Str(s) =>
      (match TextToInt(s)
       case Some(t) => Success(t)
       case None => Failure(ValueError))
    case _ => Failure(TypeError)
  }

  /** A timestamp survives being written and read back. */
  lemma IsoRoundTrip(t: int)
    ensures FromIsoFormat(Str(IsoFormat(t))) == Success(t)
  {
    IntTextRoundTrip(t);
  }
}
