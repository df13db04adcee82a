/**
 * The JavaScript values that the compilers inspect dynamically: option bags,
 * engine results and the `||` / truthiness tests applied to them.  Numbers
 * are integers here.
 */
module Js {
  import opened ObjectSet

  datatype Value =
    | Undefined
    | Null
    | Bool(b: bool)
    | Num(n: int)
    | Str(s: string)
    | Arr(items: seq<Value>)
    | Obj(fields: seq<(string, Value)>)
    | Fun(name: string)

  /** JavaScript truthiness: `undefined`, `null`, `false`, `0` and `''` are falsy. */
  predicate Truthy(v: Value) {
    match v
    case Undefined => false
    case Null => false
    case Bool(b) => b
    case Num(n) => n != 0
    case Str(s) => s != ""
    case _ => true
  }

  /** `a || b`. */
  function Or(a: Value, b: Value): (r: Value)
    ensures Truthy(a) ==> r == a
    ensures !Truthy(a) ==> r == b
  {
    if Truthy(a) then a else b
  }

  function StrArray(s: seq<string>): (r: Value)
    ensures r.Arr? && |r.items| == |s|
    ensures forall i :: 0 <= i < |s| ==> r.items[i] == Str(s[i])
  {
    Arr(seq(|s|, i requires 0 <= i < |s| => Str(s[i])))
  }

  /** An object's own enumerable properties, in insertion order. */
  type Object = seq<(string, Value)>

  function Keys(o: Object): (r: seq<string>)
    ensures |r| == |o|
    ensures forall i :: 0 <= i < |o| ==> r[i] == o[i].0
  {
    seq(|o|, i requires 0 <= i < |o| => o[i].0)
  }

  predicate WellFormed(o: Object) {
    NoDups(Keys(o))
  }

  /** `o[k]`; a missing property reads as `undefined`. */
  function Get(o: Object, k: string): (v: Value)
    decreases |o|
  {
    if o == [] then Undefined
    else if o[0].0 == k then o[0].1
    else Get(o[1..], k)
  }

  lemma {:induction false} GetMissing(o: Object, k: string)
    requires k !in Keys(o)
    ensures Get(o, k) == Undefined
    decreases |o|
  {
    if o != [] {
      assert Keys(o)[0] == o[0].0;
      assert Keys(o[1..]) == Keys(o)[1..];
      GetMissing(o[1..], k);
    }
  }

  /** `o[k] = v`: an existing key keeps its place, a new key goes last. */
  function Set(o: Object, k: string, v: Value): Object
    decreases |o|
  {
    if o == [] then [(k, v)]
    else if o[0].0 == k then [(k, v)] + o[1..]
    else [o[0]] + Set(o[1..], k, v)
  }

  lemma {:induction false} SetGet(o: Object, k: string, v: Value)
    ensures Get(Set(o, k, v), k) == v
    decreases |o|
  {
    if o != [] && o[0].0 != k {
      SetGet(o[1..], k, v);
    }
  }

  lemma {:induction false} SetGetOther(o: Object, k: string, v: Value, k': string)
    requires k' != k
    ensures Get(Set(o, k, v), k') == Get(o, k')
    decreases |o|
  {
    if o != [] && o[0].0 != k {
      SetGetOther(o[1..], k, v, k');
    }
  }

  lemma KeysCons(p: (string, Value), o: Object)
    ensures Keys([p] + o) == [p.0] + Keys(o)
  {
  }

  lemma {:induction false} SetKeys(o: Object, k: string, v: Value)
    ensures Keys(Set(o, k, v)) == Insert(Keys(o), k)
    decreases |o|
  {
    if o == [] {
      assert Keys(Set(o, k, v)) == [k];
    } else {
      assert o == [o[0]] + o[1..];
      KeysCons(o[0], o[1..]);
      if o[0].0 == k {
        KeysCons((k, v), o[1..]);
        InsertPresent(Keys(o), k);
      } else {
        SetKeys(o[1..], k, v);
        KeysCons(o[0], Set(o[1..], k, v));
        InsertCons(o[0].0, Keys(o[1..]), k);
      }
    }
  }

  lemma SetWellFormed(o: Object, k: string, v: Value)
    requires WellFormed(o)
    ensures WellFormed(Set(o, k, v))
  {
    SetKeys(o, k, v);
  }

  function Has(o: Object, k: string): bool {
    k in Keys(o)
  }

  /** The decimal spelling of an array index, as `for..in` yields it. */
  function IndexKey(i: nat): string
    decreases i
  {
    if i < 10 then [Digit(i)] else IndexKey(i / 10) + [Digit(i % 10)]
  }

  function Digit(d: nat): char
    requires d < 10
  {
    ('0' as int + d) as char
  }

  /**
   * The (key, value) pairs that `for (k in v)` visits: the indices of an
   * array or a string, the properties of an object, nothing for a primitive
   * or a function.
   */
  function ForIn(v: Value): (r: seq<(string, Value)>)
    ensures v.Arr? ==> |r| == |v.items| && forall i :: 0 <= i < |r| ==> r[i] == (IndexKey(i), v.items[i])
    ensures v.Obj? ==> r == v.fields
    ensures v.Str? ==> |r| == |v.s| && forall i :: 0 <= i < |r| ==> r[i] == (IndexKey(i), Str([v.s[i]]))
    ensures !(v.Arr? || v.Obj? || v.Str?) ==> r == []
  {
    match v
    case Arr(items) => seq(|items|, i requires 0 <= i < |items| => (IndexKey(i), items[i]))
    case Obj(fields) => fields
    case Str(s) => seq(|s|, i requires 0 <= i < |s| => (IndexKey(i), Str([s[i]])))
    case _ => []
  }
}
