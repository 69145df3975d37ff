/**
 * The parts of JavaScript's value model and of its `Math` object that the
 * engine relies on: dynamically typed values with their truthiness, the
 * nullish-coalescing operator `??`, and the real-valued `Math` helpers.
 */
module Js {

  datatype Option<T> = None | Some(value: T)

  datatype Result<T, E> = Ok(value: T) | Err(error: E)

  /**
   * A JavaScript value, as far as the engine inspects one. Numbers are
   * exact reals (there is no NaN and no rounding); an object is a map from
   * property names to values, a function is a behaviour token.
   */
  datatype Value =
    | Undefined
    | Null
    | Bool(b: bool)
    | Num(n: real)
    | Str(s: string)
    | Fn(f: Behavior)
    | Arr(items: seq<Value>)
    | Obj(fields: map<string, Value>)

  /**
   * What a behaviour function does to the particle it is given. The four
   * built-ins have their own actions; a user-supplied function is reduced to
   * a velocity change `Kick(dvx, dvy)`.
   */
  datatype Action = NoOp | Rocket | Slide | Swirl | Kick(dvx: real, dvy: real)

  /** How a call ends: it returns a value, or it throws. */
  datatype Outcome = Returns(result: Value) | Throws

  /** A behaviour function: the change it makes, then how the call ends. */
  datatype Behavior = Behavior(action: Action, outcome: Outcome)

  /** JavaScript's ToBoolean. */
  predicate Truthy(v: Value)
  {
    match v
    case Undefined => false
    case Null => false
    case Bool(b) => b
    case Num(n) => n != 0.0
    case Str(s) => s != ""
    case _ => true
  }

  predicate Nullish(v: Value)
  {
    v.Undefined? || v.Null?
  }

  /** `o[k]` on an object's own properties: undefined when the key is absent. */
  function Prop(fields: map<string, Value>, k: string): (v: Value)
    ensures k !in fields ==> v == Undefined
  {
    if k in fields then fields[k] else Undefined
  }

  /** `a ?? b`: `a` unless it is null or undefined. */
  function Coalesce(a: Value, b: Value): (r: Value)
    ensures Nullish(a) ==> r == b
    ensures !Nullish(a) ==> r == a
  {
    if Nullish(a) then b else a
  }

  /** `o?.key ?? dflt` on an optional number. */
  function OrElse(o: Option<real>, dflt: real): real
  {
    match o
    case Some(v) => v
    case None => dflt
  }
}

/** The real-valued `Math` functions the engine calls, over exact reals. */
module JsMath {

  function Min(a: real, b: real): (r: real)
    ensures r <= a && r <= b && (r == a || r == b)
  {
    if a <= b then a else b
  }

  function Max(a: real, b: real): (r: real)
    ensures r >= a && r >= b && (r == a || r == b)
  {
    if a >= b then a else b
  }

  function IMin(a: int, b: int): (r: int)
    ensures r <= a && r <= b && (r == a || r == b)
  {
    if a <= b then a else b
  }

  function IMax(a: int, b: int): (r: int)
    ensures r >= a && r >= b && (r == a || r == b)
  {
    if a >= b then a else b
  }

  function Abs(r: real): real
  {
    if r < 0.0 then -r else r
  }

  /** `Math.floor`. */
  function Floor(r: real): (f: int)
    ensures f as real <= r < f as real + 1.0
  {
    r.Floor
  }

  /** `Math.ceil`. */
  function Ceil(r: real): (c: int)
    ensures c as real - 1.0 < r <= c as real
  {
    -((-r).Floor)
  }

  /** Dividing by a positive number keeps order. */
  lemma DivMono(x: real, y: real, c: real)
    requires c > 0.0 && x <= y
    ensures x / c <= y / c
  {
    assert y / c - x / c == (y - x) / c;
  }

  lemma MulNonNeg(x: real, y: real)
    requires x >= 0.0 && y >= 0.0
    ensures x * y >= 0.0
  {
  }

  /** `Math.round`: the nearest integer, halves rounded up. */
  function Round(r: real): (n: int)
    ensures r - 0.5 < n as real <= r + 0.5
  {
    (r + 0.5).Floor
  }
}
