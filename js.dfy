/**
 The slice of JavaScript value semantics the bridge relies on: parsed JSON
 values, truthiness (the `!x` tests of the request validation), property
 reads (`entry.prompt`), and the string conversion performed by a template
 literal (`${requestId}`), which produces the keys of the pending-response
 table.
 */
module Js {

  /** A JSON value as produced by the body parser, plus `Undefined`, the value
      of a property that is absent. Numbers are integers in this model, printed
      exactly; JavaScript prints the shortest numeral that reads back as the
      same double, which differs from the exact one above 2^53. */
  datatype JsValue =
    | Undefined
    | Null
    | Bool(b: bool)
    | Num(n: int)
    | Str(s: string)
    | Arr(items: seq<JsValue>)
    | Obj(fields: map<string, JsValue>)

  /** A parsed JSON object: a request body or a result payload. */
  type Object = map<string, JsValue>

  /** The values `!v` is true of. An empty array and an empty object are truthy. */
  predicate Falsy(v: JsValue)
    ensures Falsy(v) <==> v in {Undefined, Null, Bool(false), Num(0), Str("")}
  {
    match v
    case Undefined => true
    case Null => true
    case Bool(b) => !b
    case Num(n) => n == 0
    case Str(s) => s == ""
    case Arr(_) => false
    case Obj(_) => false
  }

  /** `null` and `undefined`: reading a property of either throws a TypeError. */
  predicate Nullish(v: JsValue) {
    v == Undefined || v == Null
  }

  /** `o.name` on an object: the field's value, or `undefined` when it is absent. */
  function Field(o: Object, name: string): JsValue {
    if name in o then o[name] else Undefined
  }

  /** `v.name` for the two names the history mapping reads: `None` stands for
      the TypeError thrown when `v` is nullish; a primitive or an array has
      neither name. */
  function Get(v: JsValue, name: string): (r: Option<JsValue>)
    requires name == "prompt" || name == "response"
    ensures r.None? <==> Nullish(v)
    ensures v.Obj? ==> r == Some(Field(v.fields, name))
    ensures !v.Obj? && !Nullish(v) ==> r == Some(Undefined)
  {
    match v
    case Undefined => None
    case Null => None
    case Obj(m) => Some(Field(m, name))
    case _ => Some(Undefined)
  }

  datatype Option<+T> = None | Some(value: T)

  /** The character of a decimal digit. */
  function DigitChar(d: nat): (c: char)
    requires d < 10
    ensures '0' <= c <= '9'
  {
    "0123456789"[d]
  }

  /** The decimal numeral of a natural number, without leading zeros. */
  function NatString(n: nat): (s: string)
    ensures |s| >= 1 && '0' <= s[0] <= '9'
  {
    if n < 10 then [DigitChar(n)] else NatString(n / 10) + [DigitChar(n % 10)]
  }

  /** `String(n)` for an integer `n`. */
  function IntString(n: int): string {
    if n < 0 then "-" + NatString(-n) else NatString(n)
  }

  /** `items.join(sep)`. */
  function Join(parts: seq<string>, sep: string): string {
    if |parts| == 0 then ""
    else if |parts| == 1 then parts[0]
    else parts[0] + sep + Join(parts[1..], sep)
  }

  /** The string a template literal `${v}` makes of `v`; `None` is the
      TypeError it throws. Inside an array, `null` and `undefined` elements
      become empty strings, as in `join`. A parsed object with an own
      `toString` field throws: that field is not callable, so the conversion
      falls through to `valueOf`, which returns the object itself. */
  function ToKey(v: JsValue): (r: Option<string>)
    ensures v.Str? ==> r == Some(v.s)
    ensures v.Num? ==> r == Some(IntString(v.n))
    ensures v.Obj? ==> r == (if "toString" in v.fields then None else Some("[object Object]"))
    ensures v.Arr? ==> (r.Some? <==> forall i :: 0 <= i < |v.items| ==> Nullish(v.items[i]) || ToKey(v.items[i]).Some?)
  {
    match v
    case Undefined => Some("undefined")
    case Null => Some("null")
    case Bool(b) => Some(if b then "true" else "false")
    case Num(n) => Some(IntString(n))
    case Str(s) => Some(s)
    case Arr(items) =>
      if forall i :: 0 <= i < |items| ==> Nullish(items[i]) || ToKey(items[i]).Some? then
        Some(Join(seq(|items|, i requires 0 <= i < |items| && (Nullish(items[i]) || ToKey(items[i]).Some?) =>
                    if Nullish(items[i]) then "" else ToKey(items[i]).value), ","))
      else
        None
    case Obj(fields) => if "toString" in fields then None else Some("[object Object]")
  }

  lemma DigitCharInjective(a: nat, b: nat)
    requires a < 10 && b < 10
    ensures DigitChar(a) == DigitChar(b) ==> a == b
  {
  }

  lemma {:induction false} NatStringInjective(a: nat, b: nat)
    ensures NatString(a) == NatString(b) ==> a == b
    decreases a
  {
    var sa, sb := NatString(a), NatString(b);
    if sa == sb {
      if a < 10 && b < 10 {
        DigitCharInjective(a, b);
      } else if a >= 10 && b >= 10 {
        var pa, pb := NatString(a / 10), NatString(b / 10);
        assert sa == pa + [DigitChar(a % 10)];
        assert sb == pb + [DigitChar(b % 10)];
        assert sa[|sa| - 1] == DigitChar(a % 10) && sb[|sb| - 1] == DigitChar(b % 10);
        DigitCharInjective(a % 10, b % 10);
        assert pa == sa[..|sa| - 1] == sb[..|sb| - 1] == pb;
        NatStringInjective(a / 10, b / 10);
      }
    }
  }

  /** The first character of a numeral tells its sign. */
  lemma IntStringSign(n: int)
    ensures |IntString(n)| >= 1
    ensures IntString(n)[0] == '-' <==> n < 0
  {
  }

  lemma {:induction false} IntStringInjective(a: int, b: int)
    ensures IntString(a) == IntString(b) ==> a == b
  {
    IntStringSign(a);
    IntStringSign(b);
    if IntString(a) == IntString(b) {
      if a < 0 && b < 0 {
        assert NatString(-a) == IntString(a)[1..] == IntString(b)[1..] == NatString(-b);
        NatStringInjective(-a, -b);
      } else if a >= 0 && b >= 0 {
        NatStringInjective(a, b);
      }
    }
  }

  /** Distinct numeric request ids give distinct table keys. */
  lemma {:induction false} NumericKeysInjective(a: int, b: int)
    ensures ToKey(Num(a)) == ToKey(Num(b)) ==> a == b
  {
    assert ToKey(Num(a)) == Some(IntString(a)) && ToKey(Num(b)) == Some(IntString(b));
    IntStringInjective(a, b);
  }

  /** A number id and the string of its digits land on the same table key,
      and so does a one-element array holding the string. */
  lemma {:induction false} KeyCollisions(n: int, s: string)
    ensures ToKey(Num(n)) == ToKey(Str(IntString(n)))
    ensures ToKey(Arr([Str(s)])) == ToKey(Str(s))
  {
    var items := [Str(s)];
    assert seq(1, i requires 0 <= i < 1 && (Nullish(items[i]) || ToKey(items[i]).Some?) =>
             if Nullish(items[i]) then "" else ToKey(items[i]).value) == [s];
  }

  /** An id with an own `toString` field cannot be made a key, directly or
      as an element of any array. */
  lemma OwnToStringThrows(fields: map<string, JsValue>, items: seq<JsValue>)
    requires "toString" in fields
    ensures ToKey(Obj(fields)) == None
    ensures Obj(fields) in items ==> ToKey(Arr(items)) == None
  {
    if Obj(fields) in items {
      var i :| 0 <= i < |items| && items[i] == Obj(fields);
      assert !Nullish(items[i]);
    }
  }
}
