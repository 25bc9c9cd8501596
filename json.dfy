/** The values a JSON document or a Python dictionary loaded from one holds. */
module JsonValues {
  import opened Wrappers

  datatype Json =
    | Null
    | Bool(b: bool)
    | Int(i: int)
    | Num(r: real)
    | Str(s: string)
    | Arr(items: seq<Json>)
    | Obj(entries: map<string, Json>)

  /** Python's truth value of a JSON value. */
  predicate Truthy(v: Json)
  {
    match v
    case Null => false
    case Bool(b) => b
    case Int(i) => i != 0
    case Num(r) => r != 0.0
    case Str(s) => s != ""
    case Arr(items) => items != []
    case Obj(entries) => entries != map[]
  }

  /** The number a `bool`, an `int` or a `float` stands for in Python's `==`; none for the other values. */
  function NumberOf(v: Json): Option<real>
  {
    match v
    case Bool(b) => Some(if b then 1.0 else 0.0)
    case Int(i) => Some(i as real)
    case Num(r) => Some(r)
    case _ => None
  }

  /**
   * Python's `==` on loaded values: `True == 1 == 1.0`, lists item by item, and
   * dictionaries key by key, whatever the order of their entries.
   */
  predicate PyEq(a: Json, b: Json)
    decreases a
  {
    if NumberOf(a).Some? || NumberOf(b).Some? then NumberOf(a) == NumberOf(b)
    else match (a, b)
      case (Null, Null) => true
      case (Str(s), Str(t)) => s == t
      case (Arr(xs), Arr(ys)) => |xs| == |ys| && forall i :: 0 <= i < |xs| ==> PyEq(xs[i], ys[i])
      case (Obj(m), Obj(n)) => m.Keys == n.Keys && forall k :: k in m ==> PyEq(m[k], n[k])
      case _ => false
  }

  /** Every value is equal to itself. */
  lemma {:induction false} PyEqRefl(a: Json)
    ensures PyEq(a, a)
    decreases a
  {
    match a
    case Arr(xs) =>
      forall i | 0 <= i < |xs| ensures PyEq(xs[i], xs[i]) { PyEqRefl(xs[i]); }
    case Obj(m) =>
      forall k | k in m ensures PyEq(m[k], m[k]) { PyEqRefl(m[k]); }
    case _ =>
  }

  /** Equality does not depend on the order of its operands. */
  lemma {:induction false} PyEqSym(a: Json, b: Json)
    requires PyEq(a, b)
    ensures PyEq(b, a)
    decreases a
  {
    if NumberOf(a).None? && NumberOf(b).None? {
      match (a, b)
      case (Arr(xs), Arr(ys)) =>
        forall i | 0 <= i < |ys| ensures PyEq(ys[i], xs[i]) { PyEqSym(xs[i], ys[i]); }
      case (Obj(m), Obj(n)) =>
        forall k | k in n ensures PyEq(n[k], m[k]) { PyEqSym(m[k], n[k]); }
      case _ =>
    }
  }

  /** Python's `==` is looser than equality of the values: `1`, `True` and `1.0` are all equal, `"1"` is none of them. */
  lemma NumbersMeet()
    ensures PyEq(Int(1), Bool(true)) && PyEq(Int(1), Num(1.0)) && PyEq(Bool(false), Num(0.0))
    ensures Int(1) != Bool(true) && !PyEq(Str("1"), Int(1)) && !PyEq(Null, Bool(false))
  {
  }

  /** `d.get(key, default)` read as a text: `err` when the value found is something else. */
  function TextEntry<E>(d: map<string, Json>, key: string, default: string, err: E): (r: Result<string, E>)
    ensures key !in d ==> r == Success(default)
    ensures key in d ==> (r.Success? <==> d[key].Str?)
    ensures key in d && r.Success? ==> r.value == d[key].s
    ensures r.Failure? ==> r.error == err
  {
    if key !in d then Success(default) else if d[key].Str? then Success(d[key].s) else Failure(err)
  }

  /** A list of texts as JSON values. */
  function StrList(xs: seq<string>): (r: seq<Json>)
    ensures |r| == |xs|
    ensures forall i :: 0 <= i < |xs| ==> r[i] == Str(xs[i])
  {
    if |xs| == 0 then [] else [Str(xs[0])] + StrList(xs[1..])
  }

  /** The texts of a list of JSON values, when all of them are texts. */
  function Texts(items: seq<Json>): (r: Option<seq<string>>)
    ensures r.Some? ==> |r.value| == |items| && forall i :: 0 <= i < |items| ==> items[i] == Str(r.value[i])
    ensures (forall i :: 0 <= i < |items| ==> items[i].Str?) ==> r.Some?
  {
    if |items| == 0 then Some([])
    else if !items[0].Str? then None
    else match Texts(items[1..])
      case None => None
      case Some(rest) => Some([items[0].s] + rest)
  }

  /** A list of texts written as JSON reads back as the same list. */
  lemma {:induction false} TextsOfStrList(xs: seq<string>)
    ensures Texts(StrList(xs)) == Some(xs)
    decreases |xs|
  {
    if |xs| > 0 {
      assert StrList(xs)[1..] == StrList(xs[1..]);
      TextsOfStrList(xs[1..]);
      assert xs == [xs[0]] + xs[1..];
    }
  }
}
