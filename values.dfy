/** Shared vocabulary of the record pipeline: optional values, the closed
    property-value type, property maps (`Properties`) and record queues
    (`Queue`), as declared by the `Properties` and `Queue` type aliases. */
module Values {

  datatype Option<+T> = None | Some(value: T) {
    /** The wrapped value, or `default` when absent (Swift's `??`). */
    function GetOr(default: T): T {
      match this
      case Some(v) => v
      case None => default
    }
  }

  /** A byte of a `Data` buffer. */
  type Byte = x: int | 0 <= x < 256

  /** A dynamically typed property value.  The variants are the Foundation
      types the library stores in property maps; `Data` is the one kind of
      value the allow-list refuses.  `Bool` stands for a bridged boolean
      NSNumber (as used for `$ignore_time`).  Times are whole seconds. */
  datatype Value =
    | Str(s: string)
    | Int(i: int)
    | UInt(u: nat)
    | Double(d: real)
    | Bool(b: bool)
    | Array(items: seq<Value>)
    | Dict(entries: map<string, Value>)
    | Date(epoch: int)
    | Url(url: string)
    | Null
    | Data(bytes: seq<Byte>)

  /** The numeric kinds: each bridges to an NSNumber. */
  predicate IsNumeric(v: Value) {
    v.Int? || v.UInt? || v.Double? || v.Bool?
  }

  /** The number an NSNumber holds; a boolean is 0 or 1. */
  function NumericValue(v: Value): real
    requires IsNumeric(v)
  {
    match v
    case Int(i) => i as real
    case UInt(u) => u as real
    case Double(d) => d
    case Bool(b) => if b then 1.0 else 0.0
  }

  /** `isEqual:` of the bridged objects (`==` on `NSObject`): numbers of any
      kind are equal when they hold the same number, arrays and dictionaries
      when their elements are equal in this sense, and every other value
      only to itself. */
  predicate SameObject(v: Value, w: Value)
    decreases v
  {
    if IsNumeric(v) then IsNumeric(w) && NumericValue(v) == NumericValue(w)
    else match v
      case Array(xs) =>
        w.Array? && |xs| == |w.items| && forall i :: 0 <= i < |xs| ==> SameObject(xs[i], w.items[i])
      case Dict(m) =>
        w.Dict? && m.Keys == w.entries.Keys && forall k :: k in m ==> SameObject(m[k], w.entries[k])
      case _ => v == w
  }

  /** Every value is equal to itself. */
  lemma {:induction false} SameObjectReflexive(v: Value)
    ensures SameObject(v, v)
    decreases v
  {
    match v
    case Array(xs) =>
      forall i | 0 <= i < |xs| ensures SameObject(xs[i], xs[i]) {
        SameObjectReflexive(xs[i]);
      }
    case Dict(m) =>
      forall k | k in m ensures SameObject(m[k], m[k]) {
        SameObjectReflexive(m[k]);
      }
    case _ =>
  }

  /** The equality is symmetric. */
  lemma {:induction false} SameObjectSymmetric(v: Value, w: Value)
    requires SameObject(v, w)
    ensures SameObject(w, v)
    decreases v
  {
    if !IsNumeric(v) {
      match v
      case Array(xs) =>
        forall i | 0 <= i < |xs| ensures SameObject(w.items[i], xs[i]) {
          SameObjectSymmetric(xs[i], w.items[i]);
        }
      case Dict(m) =>
        forall k | k in w.entries ensures SameObject(w.entries[k], m[k]) {
          SameObjectSymmetric(m[k], w.entries[k]);
        }
      case _ =>
    }
  }

  /** Unlike structural equality, `isEqual:` matches 1 with 1.0 and with
      `true`, but never a number with a string. */
  lemma NumbersMatchAcrossKinds()
    ensures SameObject(Int(1), Double(1.0)) && SameObject(Bool(true), Int(1)) && SameObject(UInt(0), Bool(false))
    ensures Int(1) != Double(1.0)
    ensures !SameObject(Str("1"), Int(1)) && !SameObject(Int(1), Str("1"))
  {
  }

  /** `[String: AnyObject]` */
  type Properties = map<string, Value>

  /** `[Properties]`, oldest record first. */
  type Queue = seq<Properties>

  function Min(a: int, b: int): int { if a <= b then a else b }

  function Max(a: int, b: int): int { if a >= b then a else b }
}
