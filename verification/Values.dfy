/** Values that node outputs, params and conditions are made of. */
module Values {

  datatype Option<+T> = None | Some(value: T)

  /** Decoded JSON. Integers and floats are one case, compared by value as Python does. */
  datatype Value =
    | Null
    | Bool(b: bool)
    | Num(n: real)
    | Str(s: string)
    | List(items: seq<Value>)
    | Obj(fields: map<string, Value>)

  predicate Scalar(v: Value) {
    v.Null? || v.Bool? || v.Num? || v.Str?
  }

  /** Python's truth value. */
  predicate Truthy(v: Value) {
    match v
    case Null => false
    case Bool(b) => b
    case Num(n) => n != 0.0
    case Str(s) => s != ""
    case List(items) => items != []
    case Obj(fields) => fields != map[]
  }

  /** The number a value counts as in an equality test (`True == 1`). */
  function AsNumber(v: Value): Option<real> {
    match v
    case Bool(b) => Some(if b then 1.0 else 0.0)
    case Num(n) => Some(n)
    case _ => None
  }

  /** `actual == literal` for a scalar literal. */
  predicate LooseEqual(actual: Value, literal: Value) {
    if AsNumber(actual).Some? && AsNumber(literal).Some? then AsNumber(actual) == AsNumber(literal)
    else actual == literal
  }

  /**
   What equal means, case by case: texts by their characters, numbers by their value, a truth value as the
   number one or zero, null as itself only, and nothing of one kind with anything of another.
   */
  lemma EqualMeans(x: real, y: real, a: string, b: string, p: bool, q: bool, items: seq<Value>, fields: map<string,
      Value>)
    ensures LooseEqual(Num(x), Num(y)) <==> x == y
    ensures LooseEqual(Str(a), Str(b)) <==> a == b
    ensures LooseEqual(Bool(p), Bool(q)) <==> p == q
    ensures LooseEqual(Num(x), Bool(p)) <==> LooseEqual(Bool(p), Num(x))
    ensures LooseEqual(Num(x), Bool(p)) <==> (x == 1.0 && p) || (x == 0.0 && !p)
    ensures LooseEqual(Null, Null)
    ensures forall v | v in {Num(x), Str(a), Bool(p), List(items), Obj(fields)} ::
              !LooseEqual(v, Null) && !LooseEqual(Null, v)
    ensures forall v | v in {Num(x), Bool(p), List(items), Obj(fields)} ::
              !LooseEqual(v, Str(a)) && !LooseEqual(Str(a), v)
    ensures forall v | v in {Num(x), Bool(p)} ::
              !LooseEqual(List(items), v) && !LooseEqual(Obj(fields), v)
  {
  }

  /** Descend through nested objects; a key that is not there gives Null. */
  function Lookup(v: Value, path: seq<string>): Value {
    if path == [] then v
    else if v.Obj? && path[0] in v.fields then Lookup(v.fields[path[0]], path[1..])
    else Null
  }

  lemma {:induction false} LookupInNull(path: seq<string>)
    ensures Lookup(Null, path) == Null
  {
  }
}
