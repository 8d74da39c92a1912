/**
 * The JavaScript values the framework inspects (src/util/utils.ts): truthiness,
 * the `isJSON` guard chain, `strEnum`, and the decimal rendering `String(code)`.
 */
module Utils {

  /** A JavaScript value, as far as the request-handling core looks at it. */
  datatype Value =
    | Undefined
    | Null
    | Bool(b: bool)
    | Num(n: int)           // an integral number
    | NaN
    | Str(s: string)
    | Buffer(bytes: seq<bv8>)
    | EmptyRecord           // a freshly created plain object `{}`
    | Object(id: nat, kind: ObjectKind)   // any other object

  /**
   * What an object offers to `respond` and `isJSON`: nothing, a `pipe` method
   * without being a Stream, or a Stream instance (which always has `pipe`).
   */
  datatype ObjectKind = PlainObject | Pipeable | StreamObject

  /** JavaScript truthiness: `undefined`, `null`, `false`, `0`, `NaN` and `""` are falsy. */
  predicate Truthy(v: Value) {
    match v
    case Undefined => false
    case Null => false
    case Bool(b) => b
    case Num(n) => n != 0
    case NaN => false
    case Str(s) => s != ""
    case _ => true
  }

  /** `typeof v.pipe == 'function'`: only objects carry a `pipe` method, and every stream does. */
  predicate HasCallablePipe(v: Value) {
    v.Object? && v.kind != PlainObject
  }

  /** `v instanceof Stream`. */
  predicate IsStream(v: Value) {
    v.Object? && v.kind == StreamObject
  }

  /** `isJSON(body)`: the body will be serialised as JSON. */
  predicate IsJSON(body: Value)
    ensures !Truthy(body) ==> !IsJSON(body)
    ensures body.Str? || HasCallablePipe(body) || body.Buffer? ==> !IsJSON(body)
    ensures Truthy(body) && !body.Str? && !HasCallablePipe(body) && !body.Buffer? ==> IsJSON(body)
    ensures IsJSON(body) <==>
      body == Bool(true) || (body.Num? && body.n != 0) || body == EmptyRecord ||
      (body.Object? && body.kind == PlainObject)
  {
    if !Truthy(body) then false
    else if body.Str? then false
    else if HasCallablePipe(body) then false
    else if body.Buffer? then false
    else true
  }

  /** A stream is never serialised as JSON, with or without other properties. */
  lemma StreamIsNotJSON(v: Value)
    requires IsStream(v)
    ensures HasCallablePipe(v) && !IsJSON(v)
  {
  }

  /** The one key a plain-object assignment cannot create: assigning a string to `__proto__` is ignored. */
  const ProtoKey: string := "__proto__"

  /** `strEnum(xs)`: a left fold assigning `p[c] = c` for each element. */
  function StrEnum(xs: seq<string>): (r: map<string, string>)
    ensures r.Keys == (set x | x in xs) - {ProtoKey}
    ensures forall k :: k in r ==> r[k] == k
  {
    if xs == [] then map[]
    else
      var last := xs[|xs| - 1];
      var p := StrEnum(xs[..|xs| - 1]);
      assert xs == xs[..|xs| - 1] + [last];
      if last == ProtoKey then p else p[last := last]
  }

  /** Two lists with the same elements give the same enumeration: order and repeats do not matter. */
  lemma StrEnumDeterminedBySet(xs: seq<string>, ys: seq<string>)
    requires (set x | x in xs) == (set y | y in ys)
    ensures StrEnum(xs) == StrEnum(ys)
  {
    var a, b := StrEnum(xs), StrEnum(ys);
    assert a.Keys == b.Keys;
    forall k | k in a ensures a[k] == b[k] { }
  }

  /** Repeating an element does not change the enumeration. */
  lemma StrEnumIgnoresRepeats(xs: seq<string>, i: nat)
    requires i < |xs|
    ensures StrEnum(xs + [xs[i]]) == StrEnum(xs)
  {
    assert (set x | x in xs + [xs[i]]) == (set x | x in xs);
    StrEnumDeterminedBySet(xs + [xs[i]], xs);
  }

  function Digit(d: nat): char
    requires d < 10
  {
    "0123456789"[d]
  }

  /** `String(n)` for an integer: its shortest decimal spelling. */
  function DecimalString(n: int): (r: string)
    ensures r != []
  {
    if n < 0 then "-" + NatString(-n) else NatString(n)
  }

  function NatString(n: nat): (r: string)
    ensures r != [] && forall i :: 0 <= i < |r| ==> '0' <= r[i] <= '9'
    ensures n >= 10 ==> r[0] != '0'
  {
    if n < 10 then [Digit(n)] else NatString(n / 10) + [Digit(n % 10)]
  }

  /** The number a non-empty string of decimal digits denotes (leading zeros allowed). */
  function DigitsValue(s: string): nat
    requires forall i :: 0 <= i < |s| ==> '0' <= s[i] <= '9'
  {
    if s == [] then 0 else 10 * DigitsValue(s[..|s| - 1]) + (s[|s| - 1] as int - '0' as int)
  }

  predicate AllDigits(s: string) {
    s != [] && forall i :: 0 <= i < |s| ==> '0' <= s[i] <= '9'
  }

  /** Reading back the decimal spelling of a natural number gives the number. */
  lemma {:induction false} NatStringRoundTrip(n: nat)
    ensures AllDigits(NatString(n)) && DigitsValue(NatString(n)) == n
  {
    if n >= 10 {
      NatStringRoundTrip(n / 10);
      var s := NatString(n);
      assert s[..|s| - 1] == NatString(n / 10);
    }
  }

  /** `String(n)` of a non-negative integer reads back as that integer. */
  lemma DecimalStringRoundTrip(n: int)
    ensures n >= 0 ==> AllDigits(DecimalString(n)) && DigitsValue(DecimalString(n)) == n
  {
    if n >= 0 {
      NatStringRoundTrip(n);
    }
  }

  /**
   * Loose equality `v == n` against a number, for the values the model has:
   * a string takes part when it is a plain run of decimal digits.
   */
  predicate LooselyEqualsNumber(v: Value, n: int) {
    match v
    case Num(m) => m == n
    case Str(s) => AllDigits(s) && DigitsValue(s) == n
    case Bool(b) => (if b then 1 else 0) == n
    case _ => false
  }

  /** `String(404) == 404` holds loosely. */
  lemma DecimalLooselyEquals(n: nat)
    ensures LooselyEqualsNumber(Str(DecimalString(n)), n)
  {
    NatStringRoundTrip(n);
  }
}
