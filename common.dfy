/** Values shared by every module of the model: optional values, Python-style
    results that carry the exception a call would raise, JSON-like values for
    the dictionaries handed to the map renderer, and decimal rendering of
    integers as Python's str() and f-strings produce it. */
module Common {

  datatype Option<+T> = None | Some(value: T) {
    predicate IsFailure() { None? }

    function PropagateFailure<U>(): Option<U>
      requires None?
    {
      None
    }

    function Extract(): T
      requires Some?
    {
      value
    }
  }

  /** The exceptions the modelled code raises (messages are not modelled). */
  datatype Error =
    | ChoroplethError  // django_mapengine.choropleth.ChoroplethError
    | KeyError         // a missing dictionary key
    | IndexError       // raised explicitly for too many choropleth steps
    | TypeError        // indexing or iterating a value of the wrong kind
    | ValueError       // LegendLayer without layer and layer_id
    | AttributeError   // attribute access on None

  /** Either the value a Python call returns or the exception it raises. */
  datatype Result<+T> = Success(value: T) | Failure(error: Error) {
    predicate IsFailure() { Failure? }

    function PropagateFailure<U>(): Result<U>
      requires Failure?
    {
      Failure(error)
    }

    function Extract(): T
      requires Success?
    {
      value
    }
  }

  /** JSON-like values: layer styles, layer dicts and renderer expressions. */
  datatype Value =
    | Null
    | Bool(b: bool)
    | Int(i: int)
    | Num(r: real)
    | Str(s: string)
    | Arr(items: seq<Value>)
    | Obj(fields: map<string, Value>)

  /** JavaScript values as the frontend stores them. Objects and arrays are
      references, so === on two values is equality of this datatype. */
  datatype JsValue =
    | Undefined
    | JsNull
    | Boolean(b: bool)
    | Number(r: real)
    | Text(s: string)
    | ObjectRef(id: nat)

  /** Python truthiness of an optional string: None and "" are falsy. */
  predicate TruthyString(s: Option<string>) {
    s.Some? && s.value != ""
  }

  /** Python truthiness of an optional integer: None and 0 are falsy. */
  predicate TruthyInt(i: Option<int>) {
    i.Some? && i.value != 0
  }

  predicate IsDigit(c: char) {
    '0' <= c <= '9'
  }

  function DigitChar(d: int): (c: char)
    requires 0 <= d < 10
    ensures IsDigit(c)
  {
    "0123456789"[d]
  }

  /** Decimal digits of a natural number, without leading zeros. */
  function NatToString(n: nat): string {
    if n < 10 then [DigitChar(n)] else NatToString(n / 10) + [DigitChar(n % 10)]
  }

  /** The rendering is a non-empty run of digits with no leading zero. */
  lemma {:induction false} NatToStringDigits(n: nat)
    ensures |NatToString(n)| > 0
    ensures forall k :: 0 <= k < |NatToString(n)| ==> IsDigit(NatToString(n)[k])
    ensures n >= 10 ==> NatToString(n)[0] != '0'
  {
    if n >= 10 {
      NatToStringDigits(n / 10);
      var s := NatToString(n);
      assert s[0] == NatToString(n / 10)[0];
    }
  }

  /** Python's str() of an int: a minus sign before the digits of a negative number. */
  function IntToString(i: int): string {
    if i < 0 then "-" + NatToString(-i) else NatToString(i)
  }

  /** A negative number renders with a minus sign, any other as its digits. */
  lemma IntToStringShape(i: int)
    ensures |IntToString(i)| > 0
    ensures i >= 0 ==> forall k :: 0 <= k < |IntToString(i)| ==> IsDigit(IntToString(i)[k])
    ensures i < 0 ==> IntToString(i)[0] == '-'
  {
    if i >= 0 {
      NatToStringDigits(i);
    }
  }

  predicate StartsWith(s: string, prefix: string) {
    |prefix| <= |s| && s[..|prefix|] == prefix
  }
}
