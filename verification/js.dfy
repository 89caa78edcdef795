/**
 * The JavaScript values the core handles (request bodies, query parameters,
 * JSON replies of price providers) and the language rules it leans on:
 * truthiness, `a || b || ...` chains, property reads, and the `Number(..)` and
 * `String(..)` conversions.
 *
 * Parsing a numeral and printing a number belong to the JavaScript host, so
 * the conversions take them as parameters: `strNum` is what `Number(s)` gives
 * for a string `s`, `numStr` what `String(n)` gives for a number `n`.
 */
module Js {
  import opened Text

  /** A JavaScript number: a finite value, an infinity, or NaN. */
  datatype Number = Finite(r: real) | PosInf | NegInf | NaN

  datatype Value =
    | Undefined
    | Null
    | Bool(b: bool)
    | Num(n: Number)
    | Str(s: string)
    | Arr(elems: seq<Value>)
    | Obj(fields: map<string, Value>)

  /** The values that `if (v)` takes. */
  predicate Truthy(v: Value) {
    match v
    case Undefined => false
    case Null => false
    case Bool(b) => b
    case Num(n) => n.PosInf? || n.NegInf? || (n.Finite? && n.r != 0.0)
    case Str(s) => s != ""
    case Arr(_) => true
    case Obj(_) => true
  }

  /** `v == null`: null or undefined. */
  predicate Nullish(v: Value) { v.Undefined? || v.Null? }

  /** `v.key` (and `v?.key`): a field of an object, `undefined` for anything else. */
  function Get(v: Value, key: string): Value {
    if v.Obj? && key in v.fields then v.fields[key] else Undefined
  }

  /** `vs[0] || vs[1] || ... || vs[n-1]`: the first truthy operand, else the last one. */
  function OrChain(vs: seq<Value>): (r: Value)
    requires |vs| >= 1
    ensures r in vs
    ensures !Truthy(r) ==> r == vs[|vs| - 1]
  {
    if |vs| == 1 || Truthy(vs[0]) then vs[0] else OrChain(vs[1..])
  }

  /** An `||` chain yields its first truthy operand. */
  lemma {:induction false} OrChainFirstTruthy(vs: seq<Value>, i: nat)
    requires i < |vs| && Truthy(vs[i])
    requires forall j :: 0 <= j < i ==> !Truthy(vs[j])
    ensures OrChain(vs) == vs[i]
  {
    if i > 0 {
      OrChainFirstTruthy(vs[1..], i - 1);
    }
  }

  /** An `||` chain with no truthy operand but possibly the last yields the last. */
  lemma {:induction false} OrChainAllFalsy(vs: seq<Value>)
    requires |vs| >= 1
    requires forall j :: 0 <= j < |vs| - 1 ==> !Truthy(vs[j])
    ensures OrChain(vs) == vs[|vs| - 1]
  {
    if |vs| > 1 {
      OrChainAllFalsy(vs[1..]);
    }
  }

  /** The reads `v[keys[0]], v[keys[1]], ...` of a field-name list. */
  function Fields(v: Value, keys: seq<string>): (r: seq<Value>)
    ensures |r| == |keys|
    ensures forall i :: 0 <= i < |keys| ==> r[i] == Get(v, keys[i])
  {
    if |keys| == 0 then [] else [Get(v, keys[0])] + Fields(v, keys[1..])
  }

  /** `v.k0 || v.k1 || ... || dflt`: the first truthy field in key order, else the default. */
  function Pick(v: Value, keys: seq<string>, dflt: Value): (r: Value)
    ensures r in Fields(v, keys) + [dflt]
    ensures Truthy(r) || r == dflt
  {
    OrChain(Fields(v, keys) + [dflt])
  }

  /** `keys[i]` is the first key whose field in `v` is truthy. */
  predicate FirstTruthyAt(v: Value, keys: seq<string>, i: int) {
    && 0 <= i < |keys|
    && Truthy(Get(v, keys[i]))
    && forall j :: 0 <= j < i ==> !Truthy(Get(v, keys[j]))
  }

  /** The field `Pick` resolves to: the first key whose field is truthy wins, the default otherwise. */
  lemma PickResolves(v: Value, keys: seq<string>, dflt: Value)
    ensures forall i :: FirstTruthyAt(v, keys, i) ==> Pick(v, keys, dflt) == Get(v, keys[i])
    ensures (forall j :: 0 <= j < |keys| ==> !Truthy(Get(v, keys[j]))) ==> Pick(v, keys, dflt) == dflt
  {
    var vs := Fields(v, keys) + [dflt];
    forall i | FirstTruthyAt(v, keys, i)
      ensures Pick(v, keys, dflt) == Get(v, keys[i])
    {
      OrChainFirstTruthy(vs, i);
    }
    if forall j :: 0 <= j < |keys| ==> !Truthy(Get(v, keys[j])) {
      OrChainAllFalsy(vs);
    }
  }

  /** `Number(v)`. Arrays and objects convert to NaN here (see the README). */
  function ToNumber(v: Value, strNum: string -> Number): Number {
    match v
    case Undefined => NaN
    case Null => Finite(0.0)
    case Bool(b) => if b then Finite(1.0) else Finite(0.0)
    case Num(n) => n
    case Str(s) => strNum(s)
    case Arr(_) => NaN
    case Obj(_) => NaN
  }

  /** `String(v)`, and what `${v}` interpolates. */
  function ToString(v: Value, numStr: Number -> string): string
    decreases v, 1
  {
    match v
    case Undefined => "undefined"
    case Null => "null"
    case Bool(b) => if b then "true" else "false"
    case Num(n) => numStr(n)
    case Str(s) => s
    case Arr(es) => ArrayString(v, numStr)
    case Obj(_) => "[object Object]"
  }

  /** `String(array)`: the elements joined by commas, null and undefined elements printing as empty strings. */
  function ArrayString(v: Value, numStr: Number -> string): string
    requires v.Arr?
    decreases v, 0
  {
    var es := v.elems;
    Join(seq(|es|, i requires 0 <= i < |es| => if Nullish(es[i]) then "" else ToString(es[i], numStr)), ",")
  }

  /** The outcome of an outbound `fetch(..)` followed by `r.json()`: it threw, or it answered. */
  datatype Fetch = Threw(message: string) | Reply(status: nat, body: Value)
  {
    /** `r.ok`. */
    predicate Ok() { Reply? && 200 <= status <= 299 }
  }
}
