/** Values shared by every module of the model: an optional value, a JSON-like
    value for the free-form dictionaries the system passes around, and the
    Python numeric conversions the scoring formulas rely on. */
module Common {

  datatype Option<T> = None | Some(value: T)

  /** A JSON-like value: what a Python `Dict[str, Any]` request body, metadata
      hint or stored result may hold. */
  datatype Json =
    | JNull
    | JBool(b: bool)
    | JInt(i: int)
    | JReal(r: real)
    | JStr(s: string)
    | JList(items: seq<Json>)
    | JObj(fields: map<string, Json>)

  /** Python truthiness of a value (`if v:`). */
  predicate Truthy(v: Json) {
    match v
    case JNull => false
    case JBool(b) => b
    case JInt(i) => i != 0
    case JReal(r) => r != 0.0
    case JStr(s) => s != ""
    case JList(items) => items != []
    case JObj(fields) => fields != map[]
  }

  /** Python `int(x)` for a float `x`: truncation toward zero, which differs
      from `.Floor` for negative arguments. */
  function Trunc(x: real): (r: int)
    ensures x >= 0.0 ==> r as real <= x < r as real + 1.0
    ensures x < 0.0 ==> r as real - 1.0 < x <= r as real
  {
    if x >= 0.0 then x.Floor else -((-x).Floor)
  }

  lemma TruncMonotone(x: real, y: real)
    requires x <= y
    ensures Trunc(x) <= Trunc(y)
  {
    if x >= 0.0 {
      assert y >= 0.0;
    } else if y >= 0.0 {
      assert Trunc(x) <= 0 <= Trunc(y);
    } else {
      assert -y <= -x;
      assert (-y).Floor <= (-x).Floor;
    }
  }

  lemma TruncOfInt(n: int)
    ensures Trunc(n as real) == n
  {
  }

  /** `count / total` for a count that cannot exceed a positive total. */
  function Ratio(count: nat, total: nat): (r: real)
    requires 0 < total && count <= total
    ensures 0.0 <= r <= 1.0
  {
    count as real / total as real
  }

  /** Where `count / total` lies relative to 0 and 1. */
  lemma RatioBounds(count: nat, total: nat)
    requires 0 < total
    ensures count <= total ==> count as real / total as real <= 1.0
    ensures total <= count ==> 1.0 <= count as real / total as real
    ensures 0 < count ==> 0.0 < count as real / total as real
  {
  }

  function MinR(a: real, b: real): real { if a <= b then a else b }
  function MaxR(a: real, b: real): real { if a >= b then a else b }
  function MinI(a: int, b: int): int { if a <= b then a else b }
  function MaxI(a: int, b: int): int { if a >= b then a else b }

  /** `max(lo, min(hi, x))`, the clamp every NLP sub-score goes through. */
  function Clamp(lo: int, hi: int, x: int): (r: int)
    requires lo <= hi
    ensures lo <= r <= hi
    ensures lo <= x <= hi ==> r == x
  {
    MaxI(lo, MinI(hi, x))
  }

  lemma ClampMonotone(lo: int, hi: int, x: int, y: int)
    requires lo <= hi && x <= y
    ensures Clamp(lo, hi, x) <= Clamp(lo, hi, y)
  {
  }
}
