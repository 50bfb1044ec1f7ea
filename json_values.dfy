/**
 * Values as the configuration loader hands them to the parser: decoded JSON,
 * with Python's semantics for the few operations the parser and the model
 * apply to them (subscripting, truthiness, comparison with 1, arithmetic).
 * Exceptions the Python code raises are modelled as the `Err` case of `Result`.
 */
module PyValues {

  /** A decoded JSON value. Numbers keep Python's int/float distinction. */
  datatype Json =
    | JNull
    | JBool(b: bool)
    | JInt(i: int)
    | JFloat(f: real)
    | JStr(s: string)
    | JList(items: seq<Json>)
    | JObj(entries: seq<(string, Json)>)

  /** A JSON object's entries in insertion order (Python dicts keep it). */
  type Record = seq<(string, Json)>

  /** The reasons attached to the `ValueError`s the code raises. */
  datatype Reason =
    | FlagMismatch          // subcutaneous flag and last compartment disagree
    | DoseAmount            // dose[0] is not a positive int or float
    | DoseSchedule          // dose[1] is neither "bolus" nor "continuous"
    | CentralCount          // not exactly one central compartment
    | SubcutaneousCount     // more than one subcutaneous compartment
    | BadType(name: Json)   // a compartment type outside the three roles
    | BadVolume(name: Json) // a compartment volume that is None or <= 0
    | DoseFailure           // Model.dose met an unknown dose type
    | Unpack                // starred unpacking of an empty list

  /** The Python exceptions the modelled code can raise. */
  datatype Error =
    | KeyError
    | IndexError
    | TypeError
    | ZeroDivisionError
    | NameError
    | ValueError(reason: Reason)

  datatype Result<+T> = Ok(value: T) | Err(error: Error) {
    predicate IsFailure() { Err? }
    function PropagateFailure<U>(): Result<U> requires Err? { Err(error) }
    function Extract(): T requires Ok? { value }
  }

  /** A check that either passes or raises. */
  datatype Outcome = Pass | Fail(error: Error) {
    predicate IsFailure() { Fail? }
    function PropagateFailure<U>(): Result<U> requires Fail? { Err(error) }
  }

  /** True iff `k` is a key of `r`. */
  predicate HasKey(r: Record, k: string) {
    exists i :: 0 <= i < |r| && r[i].0 == k
  }

  /** The position of the first entry with key `k`. */
  function KeyIndex(r: Record, k: string): (i: nat)
    requires HasKey(r, k)
    ensures i < |r| && r[i].0 == k && forall j :: 0 <= j < i ==> r[j].0 != k
  {
    if r[0].0 == k then 0
    else
      assert forall i :: 1 <= i < |r| ==> r[1..][i - 1] == r[i];
      1 + KeyIndex(r[1..], k)
  }

  /** `r[k]` for a dict `r`: the value under the first entry with key `k`. */
  function Lookup(r: Record, k: string): (v: Result<Json>)
    ensures v.Ok? <==> HasKey(r, k)
    ensures v.Err? ==> v.error == KeyError
    ensures v.Ok? ==> v.value == r[KeyIndex(r, k)].1
  {
    if |r| == 0 then Err(KeyError)
    else if r[0].0 == k then Ok(r[0].1)
    else
      assert forall i :: 1 <= i < |r| ==> r[1..][i - 1] == r[i];
      Lookup(r[1..], k)
  }

  /** `v[k]` with a string key: only a dict supports it. */
  function GetKey(v: Json, k: string): (r: Result<Json>)
    ensures r.Ok? <==> v.JObj? && HasKey(v.entries, k)
    ensures r == if v.JObj? then Lookup(v.entries, k) else Err(TypeError)
  {
    match v
    case JObj(entries) => Lookup(entries, k)
    case _ => Err(TypeError)
  }

  /** `v[i]` with a non-negative int index. */
  function Subscript(v: Json, i: nat): (r: Result<Json>)
    ensures r.Ok? <==> (v.JList? && i < |v.items|) || (v.JStr? && i < |v.s|)
    ensures v.JList? && i < |v.items| ==> r == Ok(v.items[i])
    ensures r.Err? ==> r.error == (if v.JList? || v.JStr? then IndexError else if v.JObj? then KeyError else TypeError)
  {
    match v
    case JList(items) => if i < |items| then Ok(items[i]) else Err(IndexError)
    case JStr(s) => if i < |s| then Ok(JStr([s[i]])) else Err(IndexError)
    case JObj(_) => Err(KeyError)
    case _ => Err(TypeError)
  }

  /** The numeric value of an int, float or bool; anything else raises TypeError in arithmetic. */
  function NumOf(v: Json): (r: Result<real>)
    ensures r.Ok? <==> v.JInt? || v.JFloat? || v.JBool?
    ensures v.JInt? ==> r == Ok(v.i as real)
    ensures v.JFloat? ==> r == Ok(v.f)
    ensures r.Err? ==> r.error == TypeError
  {
    match v
    case JInt(i) => Ok(i as real)
    case JFloat(f) => Ok(f)
    case JBool(b) => Ok(if b then 1.0 else 0.0)
    case _ => Err(TypeError)
  }

  /** `x / v` for a float `x`: TypeError for a non-number, ZeroDivisionError for zero. */
  function Div(x: real, v: Json): (r: Result<real>)
    ensures r.Ok? <==> NumOf(v).Ok? && NumOf(v).value != 0.0
    ensures r.Ok? ==> r.value == x / NumOf(v).value
    ensures r.Err? ==> r.error == (if NumOf(v).Ok? then ZeroDivisionError else TypeError)
  {
    var d :- NumOf(v);
    if d == 0.0 then Err(ZeroDivisionError) else Ok(x / d)
  }

  /** `v * x` (or `x * v`) for a float `x`. */
  function Mul(v: Json, x: real): (r: Result<real>)
    ensures r.Ok? <==> NumOf(v).Ok?
    ensures r.Ok? ==> r.value == NumOf(v).value * x
  {
    var n :- NumOf(v);
    Ok(n * x)
  }

  lemma AppendAssoc<T>(a: seq<T>, b: seq<T>, c: seq<T>)
    ensures (a + b) + c == a + (b + c)
  {
    var l, r := (a + b) + c, a + (b + c);
    forall i | 0 <= i < |l| ensures l[i] == r[i] {
      if i < |a| {
      } else if i < |a| + |b| {
        assert l[i] == b[i - |a|] == r[i];
      } else {
        assert l[i] == c[i - |a| - |b|] == r[i];
      }
    }
    assert |l| == |r|;
  }

  /** Python's `v == 1`: true for 1, 1.0 and True. */
  predicate EqualsOne(v: Json) {
    match v
    case JInt(i) => i == 1
    case JFloat(f) => f == 1.0
    case JBool(b) => b
    case _ => false
  }

  /** Python's truth value of `v` (`if v:`). */
  predicate Truthy(v: Json) {
    match v
    case JNull => false
    case JBool(b) => b
    case JInt(i) => i != 0
    case JFloat(f) => f != 0.0
    case JStr(s) => s != ""
    case JList(items) => items != []
    case JObj(entries) => entries != []
  }

  /** The truth test and the comparison with 1 agree exactly on the values a
      boolean flag is written as in JSON (true/false, 0/1, 0.0/1.0), and on
      no other number. */
  lemma FlagTestsAgree(v: Json)
    requires v.JBool? || v.JInt? || v.JFloat?
    ensures Truthy(v) == EqualsOne(v) <==>
      (v.JBool? || (v.JInt? && 0 <= v.i <= 1) || (v.JFloat? && (v.f == 0.0 || v.f == 1.0)))
  {
  }
}
