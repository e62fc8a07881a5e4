/** The slice of JavaScript semantics the client library relies on: values as
    they arrive in options, configuration objects and response bodies, their
    truthiness, their conversion with `String(value)`, property reads, and the
    object spread `{ ...a, ...b }` used to merge configurations. */
module JsValues {

  /** A JavaScript value. Numbers are integers only; an object is the list of
      its own enumerable properties in enumeration order. */
  datatype Value =
    | Undefined
    | Null
    | Bool(b: bool)
    | Num(n: int)
    | Str(s: string)
    | Arr(items: seq<Value>)
    | Obj(fields: seq<(string, Value)>)

  /** A plain object: its own properties, in the order `Object.entries` lists them. */
  type Object = seq<(string, Value)>

  /** The outcome of evaluating an expression that may throw an `Error`:
      either a value, or the `message` of the thrown error. */
  datatype Completion<T> = Ok(value: T) | Threw(message: string)

  datatype Option<T> = None | Some(value: T)

  /** `!!v`: the falsy values are undefined, null, false, 0 and "". */
  predicate Truthy(v: Value) {
    match v
    case Undefined => false
    case Null => false
    case Bool(b) => b
    case Num(n) => n != 0
    case Str(s) => s != ""
    case Arr(_) => true
    case Obj(_) => true
  }

  function DigitChar(d: nat): (c: char)
    requires d < 10
    ensures '0' <= c <= '9' && c as int - '0' as int == d
  {
    (d + '0' as int) as char
  }

  /** Decimal notation of a natural number, as template literals print it. */
  function NatToString(n: nat): (r: string)
    ensures |r| >= 1
    ensures forall i :: 0 <= i < |r| ==> '0' <= r[i] <= '9'
    ensures |r| > 1 ==> r[0] != '0'
    decreases n
  {
    if n < 10 then [DigitChar(n)] else NatToString(n / 10) + [DigitChar(n % 10)]
  }

  /** The number a string of decimal digits denotes. */
  function DecimalValue(s: string): int
  {
    if |s| == 0 then 0 else 10 * DecimalValue(s[..|s| - 1]) + (s[|s| - 1] as int - '0' as int)
  }

  /** Reading back the digits `NatToString` prints gives the number again. */
  lemma {:induction false} NatToStringRoundTrip(n: nat)
    ensures DecimalValue(NatToString(n)) == n
    decreases n
  {
    if n >= 10 {
      var r := NatToString(n);
      assert r[..|r| - 1] == NatToString(n / 10);
      NatToStringRoundTrip(n / 10);
    }
  }

  /** `${n}` for an integer `n`. */
  function IntToString(n: int): (r: string)
    ensures n >= 0 ==> r == NatToString(n)
    ensures n < 0 ==> r == "-" + NatToString(-n)
  {
    if n >= 0 then NatToString(n) else "-" + NatToString(-n)
  }

  /** `String(v)`: strings unchanged, arrays joined with "," (null and
      undefined elements print as ""), every other object "[object Object]". */
  function ToJsString(v: Value): (r: string)
    ensures v.Str? ==> r == v.s
    decreases v, 1
  {
    match v
    case Undefined => "undefined"
    case Null => "null"
    case Bool(b) => if b then "true" else "false"
    case Num(n) => IntToString(n)
    case Str(s) => s
    case Arr(xs) => JoinItems(xs)
    case Obj(_) => "[object Object]"
  }

  /** `Array.prototype.join(",")` over the elements of an array. */
  function JoinItems(xs: seq<Value>): string
    decreases xs, 0
  {
    if |xs| == 0 then ""
    else
      var head := if xs[0].Undefined? || xs[0].Null? then "" else ToJsString(xs[0]);
      if |xs| == 1 then head else head + "," + JoinItems(xs[1..])
  }

  /** `Object.hasOwn(o, k)`. */
  predicate HasKey(o: Object, k: string) {
    |o| > 0 && (o[0].0 == k || HasKey(o[1..], k))
  }

  predicate DistinctKeys(o: Object) {
    forall i, j :: 0 <= i < j < |o| ==> o[i].0 != o[j].0
  }

  /** The property read `o.k` (or `o[k]`): the own property, else undefined. */
  function Get(o: Object, k: string): (v: Value)
    ensures !HasKey(o, k) ==> v == Undefined
  {
    if |o| == 0 then Undefined else if o[0].0 == k then o[0].1 else Get(o[1..], k)
  }

  /** The optional-chaining read `v?.k`: a property of an object, undefined for anything else. */
  function Prop(v: Value, k: string): Value {
    if v.Obj? then Get(v.fields, k) else Undefined
  }

  lemma {:induction false} HasKeyAt(o: Object, i: nat)
    requires i < |o|
    ensures HasKey(o, o[i].0)
    decreases i
  {
    if i > 0 {
      HasKeyAt(o[1..], i - 1);
    }
  }

  /** A read finds the first property carrying the key. */
  lemma {:induction false} GetFirst(o: Object, i: nat, k: string)
    requires i < |o| && o[i].0 == k
    requires forall j :: 0 <= j < i ==> o[j].0 != k
    ensures Get(o, k) == o[i].1
    decreases i
  {
    if i > 0 {
      GetFirst(o[1..], i - 1, k);
    }
  }

  lemma {:induction false} GetAppend(a: Object, b: Object, k: string)
    ensures Get(a + b, k) == if HasKey(a, k) then Get(a, k) else Get(b, k)
    ensures HasKey(a + b, k) == (HasKey(a, k) || HasKey(b, k))
    decreases |a|
  {
    if |a| > 0 {
      assert (a + b)[1..] == a[1..] + b;
      GetAppend(a[1..], b, k);
    } else {
      assert a + b == b;
    }
  }

  /** The properties of `a`, each taking the value `b` gives it when `b` has it. */
  function Overlay(a: Object, b: Object): (r: Object)
    ensures |r| == |a|
    ensures forall i :: 0 <= i < |a| ==> r[i].0 == a[i].0
  {
    seq(|a|, i requires 0 <= i < |a| => (a[i].0, if HasKey(b, a[i].0) then Get(b, a[i].0) else a[i].1))
  }

  /** The properties of `b` whose keys `a` does not have, in `b`'s order. */
  function Fresh(a: Object, b: Object): (r: Object)
    ensures forall i :: 0 <= i < |r| ==> !HasKey(a, r[i].0)
  {
    if |b| == 0 then []
    else (if HasKey(a, b[0].0) then [] else [b[0]]) + Fresh(a, b[1..])
  }

  /** The object spread `{ ...a, ...b }`: `a`'s keys keep their places and
      take `b`'s value where `b` has one (even an undefined one); keys only
      `b` has follow, in `b`'s order. */
  function Spread(a: Object, b: Object): Object {
    Overlay(a, b) + Fresh(a, b)
  }

  lemma {:induction false} GetFresh(a: Object, b: Object, k: string)
    requires !HasKey(a, k)
    ensures Get(Fresh(a, b), k) == Get(b, k)
    ensures HasKey(Fresh(a, b), k) == HasKey(b, k)
    decreases |b|
  {
    if |b| > 0 {
      GetFresh(a, b[1..], k);
      var head: Object := if HasKey(a, b[0].0) then [] else [b[0]];
      GetAppend(head, Fresh(a, b[1..]), k);
    }
  }

  lemma {:induction false} GetOverlay(a: Object, b: Object, k: string)
    ensures Get(Overlay(a, b), k) == if HasKey(a, k) && HasKey(b, k) then Get(b, k) else Get(a, k)
    ensures HasKey(Overlay(a, b), k) == HasKey(a, k)
    decreases |a|
  {
    if |a| > 0 {
      assert Overlay(a, b)[1..] == Overlay(a[1..], b);
      GetOverlay(a[1..], b, k);
    }
  }

  /** Key by key, the spread gives the explicit value where `b` has the key
      and the default otherwise. */
  lemma SpreadGet(a: Object, b: Object, k: string)
    ensures Get(Spread(a, b), k) == if HasKey(b, k) then Get(b, k) else Get(a, k)
    ensures HasKey(Spread(a, b), k) == (HasKey(a, k) || HasKey(b, k))
  {
    GetAppend(Overlay(a, b), Fresh(a, b), k);
    GetOverlay(a, b, k);
    if !HasKey(a, k) {
      GetFresh(a, b, k);
    }
  }

  lemma {:induction false} FreshOfOwnKeys(a: Object, o: Object)
    requires forall i :: 0 <= i < |o| ==> HasKey(a, o[i].0)
    ensures Fresh(a, o) == []
    decreases |o|
  {
    if |o| > 0 {
      FreshOfOwnKeys(a, o[1..]);
    }
  }

  lemma {:induction false} FreshAppend(a: Object, x: Object, y: Object)
    ensures Fresh(a, x + y) == Fresh(a, x) + Fresh(a, y)
    decreases |x|
  {
    if |x| == 0 {
      assert x + y == y;
    } else {
      assert (x + y)[1..] == x[1..] + y;
      FreshAppend(a, x[1..], y);
    }
  }

  lemma {:induction false} FreshOfFresh(a: Object, f: Object)
    requires forall i :: 0 <= i < |f| ==> !HasKey(a, f[i].0)
    ensures Fresh(a, f) == f
    decreases |f|
  {
    if |f| > 0 {
      FreshOfFresh(a, f[1..]);
    }
  }

  /** The keys of `a` keep their merged values when `a` is spread again. */
  lemma OverlayOfSpread(a: Object, b: Object)
    requires DistinctKeys(a)
    ensures Overlay(a, Spread(a, b)) == Overlay(a, b)
  {
    var c := Spread(a, b);
    forall i | 0 <= i < |a|
      ensures Overlay(a, c)[i] == c[i]
    {
      var k := a[i].0;
      GetFirst(c, i, k);
      HasKeyAt(c, i);
    }
  }

  /** Spreading `a` again adds no key beyond those the merge already added. */
  lemma FreshOfSpread(a: Object, b: Object)
    ensures Fresh(a, Spread(a, b)) == Fresh(a, b)
  {
    var ov, fr := Overlay(a, b), Fresh(a, b);
    forall i | 0 <= i < |ov|
      ensures HasKey(a, ov[i].0)
    {
      HasKeyAt(a, i);
    }
    FreshAppend(a, ov, fr);
    FreshOfOwnKeys(a, ov);
    FreshOfFresh(a, fr);
  }

  /** Spreading the defaults under an already merged configuration changes
      nothing: `{ ...d, ...{ ...d, ...c } }` is `{ ...d, ...c }`, property
      order included. */
  lemma SpreadIdempotent(a: Object, b: Object)
    requires DistinctKeys(a)
    ensures Spread(a, Spread(a, b)) == Spread(a, b)
  {
    OverlayOfSpread(a, b);
    FreshOfSpread(a, b);
  }
}
