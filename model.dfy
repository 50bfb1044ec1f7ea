/**
 * PKPy/model.py: the compartment objects, the model built from the parser's
 * output, the dose policy, the right-hand side of the ODE system handed to
 * the solver, the initial state and the keying of the solver's rows by
 * compartment name. Amounts and time are exact reals; the solver itself is
 * not modelled, its output rows are a parameter.
 */
module PkModel {
  import opened PyValues
  import opened TypeOrder
  import opened SystemParser

  datatype Option<T> = None | Some(value: T)

  // ---------------------------------------------------------------------------
  // Compartment

  /** A `Compartment` object: its six attributes as the record held them. */
  datatype Compartment = Compartment(
    name: Json, kind: Json, volume: Json, initialAmount: Json, rateIn: Json, rateOut: Json)

  /** The keys `Compartment.__init__` subscripts (`rate_in` is read with `get`). */
  predicate HasRequired(r: Record) {
    HasKey(r, "name") && HasKey(r, "type") && HasKey(r, "volume") &&
    HasKey(r, "initial_amount") && HasKey(r, "rate_out")
  }

  /** The compartment whose attributes are the record's values, None for an
      absent key. */
  function FromAttributes(r: Record): Compartment {
    Compartment(Attr(r, "name"), Attr(r, "type"), Attr(r, "volume"),
                Attr(r, "initial_amount"), Attr(r, "rate_in"), Attr(r, "rate_out"))
  }

  /** `Compartment(dict)`: KeyError for a missing required key; `rate_in`
      defaults to None. */
  function NewCompartment(r: Record): (c: Result<Compartment>)
    ensures c.Ok? <==> HasRequired(r)
    ensures c.Err? ==> c.error == KeyError
    ensures c.Ok? ==> c.value == FromAttributes(r)
  {
    var name :- Lookup(r, "name");
    var kind :- Lookup(r, "type");
    var volume :- Lookup(r, "volume");
    var amount :- Lookup(r, "initial_amount");
    var rateIn := match Lookup(r, "rate_in") case Ok(v) => v case Err(_) => JNull;
    var rateOut :- Lookup(r, "rate_out");
    Ok(Compartment(name, kind, volume, amount, rateIn, rateOut))
  }

  /** `[Compartment(dict) for dict in compartments]`: every `Compartment`
      raises only KeyError, so the first failure and any failure agree. */
  function Compartments(rs: seq<Record>): (r: Result<seq<Compartment>>)
    ensures r.Ok? <==> forall i :: 0 <= i < |rs| ==> HasRequired(rs[i])
    ensures r.Err? ==> r.error == KeyError
    ensures r.Ok? ==> |r.value| == |rs| && forall i :: 0 <= i < |rs| ==> r.value[i] == FromAttributes(rs[i])
  {
    if forall i :: 0 <= i < |rs| ==> HasRequired(rs[i]) then
      Ok(seq(|rs|, i requires 0 <= i < |rs| && HasRequired(rs[i]) => NewCompartment(rs[i]).value))
    else Err(KeyError)
  }

  // ---------------------------------------------------------------------------
  // Model.__init__

  /** Who plays which part: the central compartment, the subcutaneous one
      when the flag is truthy, and the others, in list order. */
  datatype Layout = Layout(central: Compartment, sub: Option<Compartment>, others: seq<Compartment>)

  /** Lines 48-53. With a truthy flag, the first, the last and the middle
      slice (`[1:-1]`, empty for a list of one or two); otherwise
      `central, *others = list`, which raises ValueError on an empty list. */
  function Partition(flag: Json, list: seq<Compartment>): (l: Result<Layout>)
    ensures l.Ok? <==> |list| >= 1
    ensures l.Err? ==> l.error == (if Truthy(flag) then IndexError else ValueError(Unpack))
    ensures l.Ok? ==> l.value.central == list[0] && (l.value.sub.Some? <==> Truthy(flag))
    ensures l.Ok? && Truthy(flag) ==> l.value.sub.value == list[|list| - 1]
    ensures l.Ok? && Truthy(flag) && |list| == 1 ==> l.value.others == []
    ensures l.Ok? ==> (StateOrder(l.value) == list <==> !Truthy(flag) || |list| >= 2)
  {
    if |list| == 0 then (if Truthy(flag) then Err(IndexError) else Err(ValueError(Unpack)))
    else if Truthy(flag) then
      var others := if |list| >= 2 then list[1..|list| - 1] else [];
      assert |list| >= 2 ==> [list[0]] + others + [list[|list| - 1]] == list;
      Ok(Layout(list[0], Some(list[|list| - 1]), others))
    else
      assert [list[0]] + list[1..] == list;
      Ok(Layout(list[0], None, list[1..]))
  }

  /** The order of the state variables `ode_system` reads and writes:
      central, the others, then the subcutaneous compartment if any. */
  function StateOrder(l: Layout): (s: seq<Compartment>)
    ensures |s| == 1 + |l.others| + (if l.sub.Some? then 1 else 0)
    ensures s[0] == l.central
  {
    [l.central] + l.others + (if l.sub.Some? then [l.sub.value] else [])
  }

  /** The model's attributes after `__init__`. `self.subcutaneous` is the
      flag; when the flag is truthy it is then replaced by a compartment,
      which is always truthy, so `if self.subcutaneous:` tests `layout.sub`. */
  datatype ModelState = ModelState(
    flag: Json, doseConstant: Json, doseType: Json, compartmentList: seq<Compartment>, layout: Layout)

  /** A `dose` entry that `dose[0]` and `dose[1]` can read. */
  predicate DoseReadable(basic: Json) {
    && basic.JObj? && HasKey(basic.entries, "dose")
    && var d := Lookup(basic.entries, "dose").value;
       (d.JList? && |d.items| >= 2) || (d.JStr? && |d.s| >= 2)
  }

  /** `Model.__init__` on the parser's output `[basic_params, compartments]`:
      it raises exactly when a parameter cannot be read, a record lacks a
      required key, or there is no compartment; otherwise the model holds the
      flag, the dose, one compartment per record and their partition. */
  function Init(basic: Json, cs: seq<Record>): (r: Result<ModelState>)
    ensures r.Ok? <==>
      HasFlag(basic) && DoseReadable(basic) && |cs| >= 1 && forall i :: 0 <= i < |cs| ==> HasRequired(cs[i])
    ensures r.Ok? ==>
      var d := Lookup(basic.entries, "dose").value;
      && r.value.flag == Flag(basic)
      && r.value.doseConstant == Subscript(d, 0).value && r.value.doseType == Subscript(d, 1).value
      && r.value.compartmentList == Compartments(cs).value
      && Partition(r.value.flag, r.value.compartmentList) == Ok(r.value.layout)
  {
    var flag :- GetKey(basic, "subcutaneous");
    var dose :- GetKey(basic, "dose");
    var amount :- Subscript(dose, 0);
    var schedule :- Subscript(dose, 1);
    var list :- Compartments(cs);
    var layout :- Partition(flag, list);
    Ok(ModelState(flag, amount, schedule, list, layout))
  }

  /** `Model.__init__` after `parser.construct()` returned or raised `p`. */
  function InitAfter(p: Result<Parsed>): Result<ModelState> {
    match p
    case Ok(q) => Init(q.basic, q.compartments)
    case Err(e) => Err(e)
  }

  // ---------------------------------------------------------------------------
  // Model.dose

  /** Lines 65-70: the constant for a continuous dose, the constant at
      exactly t == 0 and int 0 otherwise for a bolus, ValueError otherwise. */
  function Dose(doseType: Json, doseConstant: Json, t: real): (r: Result<Json>)
    ensures r.Err? <==> doseType !in Schedules
    ensures r.Err? ==> r.error == ValueError(DoseFailure)
    ensures r.Ok? ==> r.value == doseConstant || r.value == JInt(0)
    ensures doseType == JStr("continuous") ==> r == Ok(doseConstant)
    ensures doseType == JStr("bolus") ==> r == Ok(if t == 0.0 then doseConstant else JInt(0))
  {
    if doseType == JStr("continuous") then Ok(doseConstant)
    else if doseType == JStr("bolus") then Ok(if t == 0.0 then doseConstant else JInt(0))
    else Err(ValueError(DoseFailure))
  }

  /** The numeric dose rate at time t, when it has one. */
  function DoseRate(m: ModelState, t: real): Result<real> {
    var d :- Dose(m.doseType, m.doseConstant, t);
    NumOf(d)
  }

  /** A continuous dose gives the same rate at every time; a bolus gives its
      amount at t == 0 and nothing at any other time. */
  lemma DoseSchedule(doseType: Json, k: Json, t: real)
    requires PositiveNumber(k)
    ensures doseType == JStr("continuous") ==> Dose(doseType, k, t) == Ok(k)
    ensures doseType == JStr("bolus") ==>
      Dose(doseType, k, t).Ok? && (NumOf(Dose(doseType, k, t).value).value > 0.0 <==> t == 0.0)
  {
  }

  // ---------------------------------------------------------------------------
  // Model.ode_system

  function Min(a: nat, b: nat): nat {
    if a <= b then a else b
  }

  /** `x / v` does not raise. */
  predicate Nonzero(v: Json) {
    NumOf(v).Ok? && NumOf(v).value != 0.0
  }

  /** Every step of one peripheral derivative can be evaluated. */
  predicate PeripheralOk(vc: Json, p: Compartment) {
    Nonzero(vc) && Nonzero(p.volume) && NumOf(p.rateIn).Ok?
  }

  /** `C.rate_in * (c / Vc - a / C.volume)`: the flow into a peripheral
      compartment driven by the difference of concentrations. */
  function PeripheralRate(c: real, vc: Json, a: real, p: Compartment): real
    requires PeripheralOk(vc, p)
  {
    NumOf(p.rateIn).value * (c / NumOf(vc).value - a / NumOf(p.volume).value)
  }

  /** Line 92 for one compartment: both divisions, then the product. */
  function PeripheralStep(c: real, vc: Json, a: real, p: Compartment): (r: Result<real>)
    ensures r.Ok? <==> PeripheralOk(vc, p)
    ensures r.Ok? ==> r.value == PeripheralRate(c, vc, a, p)
  {
    var x :- Div(c, vc);
    var y :- Div(a, p.volume);
    assert x == c / NumOf(vc).value && y == a / NumOf(p.volume).value;
    Mul(p.rateIn, x - y)
  }

  /** Lines 90-93: one derivative per pair of `zip(other_amounts,
      other_compartments)`, which stops at the shorter of the two. */
  function Peripherals(c: real, vc: Json, amounts: seq<real>, ps: seq<Compartment>): (r: Result<seq<real>>)
    ensures r.Ok? ==> |r.value| == Min(|amounts|, |ps|)
    decreases |amounts|
  {
    if |amounts| == 0 || |ps| == 0 then Ok([])
    else
      var d :- PeripheralStep(c, vc, amounts[0], ps[0]);
      var rest :- Peripherals(c, vc, amounts[1..], ps[1..]);
      Ok([d] + rest)
  }

  /** The loop yields one derivative per pair, each the flow of line 92 for
      that pair, and raises iff some pair's flow cannot be evaluated. */
  lemma {:induction false} PeripheralsClosedForm(c: real, vc: Json, amounts: seq<real>, ps: seq<Compartment>)
    ensures var r := Peripherals(c, vc, amounts, ps);
      && (r.Ok? <==> forall i :: 0 <= i < Min(|amounts|, |ps|) ==> PeripheralOk(vc, ps[i]))
      && (r.Ok? ==> |r.value| == Min(|amounts|, |ps|))
      && (r.Ok? ==> forall i :: 0 <= i < |r.value| ==>
            PeripheralOk(vc, ps[i]) && r.value[i] == PeripheralRate(c, vc, amounts[i], ps[i]))
    decreases |amounts|
  {
    if |amounts| > 0 && |ps| > 0 {
      PeripheralsClosedForm(c, vc, amounts[1..], ps[1..]);
      assert forall i :: 1 <= i < Min(|amounts|, |ps|) ==> ps[1..][i - 1] == ps[i] && amounts[1..][i - 1] == amounts[i];
    }
  }

  function Sum(s: seq<real>): real {
    if s == [] then 0.0 else s[0] + Sum(s[1..])
  }

  /** `y[1:-1]`. */
  function Middle(y: seq<real>): seq<real> {
    if |y| >= 2 then y[1..|y| - 1] else []
  }

  /** The amounts `ode_system` pairs with the other compartments. */
  function OtherAmounts(m: ModelState, y: seq<real>): seq<real> {
    if m.layout.sub.Some? then Middle(y) else if |y| == 0 then [] else y[1..]
  }

  /** `ode_system(t, y)` as evidently intended: in both branches the amounts
      are unpacked into locals (lines 84-85). Errors arise in the order the
      expressions of lines 91-100 are evaluated. */
  function OdeRhs(m: ModelState, t: real, y: seq<real>): (r: Result<seq<real>>)
    ensures |y| == 0 ==> r == Err(if m.layout.sub.Some? then IndexError else ValueError(Unpack))
    ensures r.Ok? ==> DoseRate(m, t).Ok? && Nonzero(m.layout.central.volume)
  {
    var l := m.layout;
    match l.sub
    case Some(s) =>
      if |y| == 0 then Err(IndexError)
      else
        var c := y[0];
        var ds :- Peripherals(c, l.central.volume, Middle(y), l.others);
        var outflow :- Mul(s.rateOut, y[|y| - 1]);
        var conc :- Div(c, l.central.volume);
        var elim :- Mul(l.central.rateOut, conc);
        var dose :- Dose(m.doseType, m.doseConstant, t);
        var dv :- NumOf(dose);
        Ok([outflow - elim - Sum(ds)] + ds + [dv - outflow])
    case None =>
      if |y| == 0 then Err(ValueError(Unpack))
      else
        var c := y[0];
        var ds :- Peripherals(c, l.central.volume, y[1..], l.others);
        var dose :- Dose(m.doseType, m.doseConstant, t);
        var conc :- Div(c, l.central.volume);
        var elim :- Mul(l.central.rateOut, conc);
        var dv :- NumOf(dose);
        Ok([dv - elim - Sum(ds)] + ds)
  }

  /** `ode_system(t, y)` as written: without a subcutaneous compartment,
      line 87 binds `self.central_amount` and `self.other_amounts`, so reading
      the local `other_amounts` at line 91 raises NameError. */
  function OdeRhsAsWritten(m: ModelState, t: real, y: seq<real>): (r: Result<seq<real>>)
    ensures m.layout.sub.None? ==> r.Err?
  {
    if m.layout.sub.Some? then OdeRhs(m, t, y)
    else if |y| == 0 then Err(ValueError(Unpack))
    else Err(NameError)
  }

  /** When prefixing the derivatives already computed to the rest. */
  function Prepend(ds: seq<real>, r: Result<seq<real>>): Result<seq<real>> {
    if r.Err? then r else Ok(ds + r.value)
  }

  /** The loop of lines 90-93 over `zip(other_amounts, other_compartments)`. */
  method PeripheralDerivatives(c: real, vc: Json, amounts: seq<real>, ps: seq<Compartment>)
    returns (r: Result<seq<real>>)
    ensures r == Peripherals(c, vc, amounts, ps)
  {
    var derivatives: seq<real> := [];
    var n := Min(|amounts|, |ps|);
    var i := 0;
    assert amounts[0..] == amounts && ps[0..] == ps;
    assert Peripherals(c, vc, amounts, ps).Ok? ==>
      [] + Peripherals(c, vc, amounts, ps).value == Peripherals(c, vc, amounts, ps).value;
    while i < n
      invariant 0 <= i <= n
      invariant Peripherals(c, vc, amounts, ps) == Prepend(derivatives, Peripherals(c, vc, amounts[i..], ps[i..]))
    {
      assert amounts[i..][1..] == amounts[i + 1..] && ps[i..][1..] == ps[i + 1..];
      var d :- PeripheralStep(c, vc, amounts[i], ps[i]);
      ghost var rest := Peripherals(c, vc, amounts[i + 1..], ps[i + 1..]);
      assert Peripherals(c, vc, amounts[i..], ps[i..]) == if rest.Err? then rest else Ok([d] + rest.value);
      if rest.Ok? {
        AppendAssoc(derivatives, [d], rest.value);
      }
      derivatives := derivatives + [d];
      i := i + 1;
    }
    assert |amounts[i..]| == 0 || |ps[i..]| == 0;
    assert Peripherals(c, vc, amounts[i..], ps[i..]) == Ok([]);
    assert derivatives + [] == derivatives;
    return Ok(derivatives);
  }

  // ---------------------------------------------------------------------------
  // The model object

  class Model {
    const flag: Json
    const doseConstant: Json
    const doseType: Json
    const compartmentList: seq<Compartment>
    const layout: Layout

    constructor (s: ModelState)
      ensures Snapshot() == s
    {
      flag := s.flag;
      doseConstant := s.doseConstant;
      doseType := s.doseType;
      compartmentList := s.compartmentList;
      layout := s.layout;
    }

    /** The object's attributes as a value. */
    function Snapshot(): ModelState {
      ModelState(flag, doseConstant, doseType, compartmentList, layout)
    }

    /** `Model.__init__` on the parser's output. */
    static method Create(basic: Json, cs: seq<Record>) returns (r: Result<Model>)
      ensures r.Ok? <==> Init(basic, cs).Ok?
      ensures r.Ok? ==> r.value.Snapshot() == Init(basic, cs).value
      ensures r.Err? ==> Init(basic, cs) == Err(r.error)
    {
      var f :- GetKey(basic, "subcutaneous");
      var dose :- GetKey(basic, "dose");
      var amount :- Subscript(dose, 0);
      var schedule :- Subscript(dose, 1);
      var list :- Compartments(cs);
      var l :- Partition(f, list);
      var m := new Model(ModelState(f, amount, schedule, list, l));
      return Ok(m);
    }

    /** `Model(systemfile)`: the parser runs on the decoded configuration,
        then `__init__` on what it returns. */
    static method Load(c: Config) returns (r: Result<Model>)
      ensures r.Ok? <==> InitAfter(ConstructSpec(c)).Ok?
      ensures r.Ok? ==> r.value.Snapshot() == InitAfter(ConstructSpec(c)).value
      ensures r.Err? ==> InitAfter(ConstructSpec(c)) == Err(r.error)
    {
      var parser := new Parser(c);
      var p := parser.Construct();
      if p.Err? {
        return Err(p.error);
      }
      r := Create(p.value.basic, p.value.compartments);
    }

    /** Lines 83-101. */
    method OdeSystem(t: real, y: seq<real>) returns (r: Result<seq<real>>)
      ensures r == OdeRhs(Snapshot(), t, y)
    {
      if |y| == 0 {
        return if layout.sub.Some? then Err(IndexError) else Err(ValueError(Unpack));
      }
      var c := y[0];
      var vc := layout.central.volume;
      match layout.sub {
        case Some(s) =>
          var derivatives :- PeripheralDerivatives(c, vc, Middle(y), layout.others);
          var outflow :- Mul(s.rateOut, y[|y| - 1]);
          var conc :- Div(c, vc);
          var elim :- Mul(layout.central.rateOut, conc);
          var dose :- Dose(doseType, doseConstant, t);
          var dv :- NumOf(dose);
          return Ok([outflow - elim - Sum(derivatives)] + derivatives + [dv - outflow]);
        case None =>
          var derivatives :- PeripheralDerivatives(c, vc, y[1..], layout.others);
          var dose :- Dose(doseType, doseConstant, t);
          var conc :- Div(c, vc);
          var elim :- Mul(layout.central.rateOut, conc);
          var dv :- NumOf(dose);
          return Ok([dv - elim - Sum(derivatives)] + derivatives);
      }
    }

    /** Lines 115-118 as written: central, then subcutaneous, then the others. */
    method InitialValuesAsWritten() returns (y0: seq<Json>)
      ensures y0 == Amounts(InitialOrderAsWritten(layout))
    {
      var front := [layout.central];
      if layout.sub.Some? {
        front := front + [layout.sub.value];
      }
      y0 := AppendAmounts(Amounts(front), layout.others);
      AmountsAppend(front, layout.others);
    }

    /** The initial state in the order `ode_system` reads it: central, the
        others, then subcutaneous. */
    method InitialValues() returns (y0: seq<Json>)
      ensures y0 == Amounts(StateOrder(layout))
    {
      y0 := AppendAmounts([layout.central.initialAmount], layout.others);
      AmountsAppend([layout.central], layout.others);
      if layout.sub.Some? {
        y0 := y0 + [layout.sub.value.initialAmount];
        AmountsAppend([layout.central] + layout.others, [layout.sub.value]);
      }
    }

    /** Lines 126-128: row i of the solver's output under the name of the
        i-th compartment. */
    method KeyTimeseries(rows: seq<seq<real>>) returns (r: Result<map<Json, seq<real>>>)
      ensures r == Keyed(compartmentList, rows)
    {
      var table: map<Json, seq<real>> := map[];
      var i := 0;
      while i < |compartmentList|
        invariant 0 <= i <= |compartmentList|
        invariant KeyedPrefix(compartmentList, rows, i) == Ok(table)
      {
        if i >= |rows| {
          KeyedErrorPersists(compartmentList, rows, i + 1, |compartmentList|);
          return Err(IndexError);
        }
        var k := KeyOf(compartmentList[i].name);
        if k.Err? {
          KeyedErrorPersists(compartmentList, rows, i + 1, |compartmentList|);
          return Err(k.error);
        }
        table := table[k.value := rows[i]];
        i := i + 1;
      }
      return Ok(table);
    }
  }

  // ---------------------------------------------------------------------------
  // Properties of ode_system

  lemma {:induction false} SumAppend(a: seq<real>, b: seq<real>)
    ensures Sum(a + b) == Sum(a) + Sum(b)
  {
    if a != [] {
      assert (a + b)[1..] == a[1..] + b;
      SumAppend(a[1..], b);
    } else {
      assert a + b == b;
    }
  }

  /** The amount of drug leaving the central compartment per unit time,
      `c / Vc * central.rate_out`. */
  function Elimination(m: ModelState, c: real): real
    requires Nonzero(m.layout.central.volume) && NumOf(m.layout.central.rateOut).Ok?
  {
    Mul(m.layout.central.rateOut, Div(c, m.layout.central.volume).value).value
  }

  /** What `ode_system` returns when it returns: one derivative per
      peripheral pair, each the flow of line 92; for the subcutaneous
      compartment, inflow from the dose minus absorption, placed last; for the
      central compartment, absorption (or the dose) minus elimination minus
      the flows into the peripherals. */
  lemma RhsShape(m: ModelState, t: real, y: seq<real>, d: seq<real>)
    requires OdeRhs(m, t, y) == Ok(d)
    ensures |y| >= 1 && DoseRate(m, t).Ok?
    ensures Nonzero(m.layout.central.volume) && NumOf(m.layout.central.rateOut).Ok?
    ensures var n := Min(|OtherAmounts(m, y)|, |m.layout.others|);
      && |d| == 1 + n + (if m.layout.sub.Some? then 1 else 0)
      && (forall i :: 0 <= i < n ==>
            (PeripheralOk(m.layout.central.volume, m.layout.others[i]) &&
             d[1 + i] == PeripheralRate(y[0], m.layout.central.volume, OtherAmounts(m, y)[i], m.layout.others[i])))
      && (m.layout.sub.Some? ==>
            var s := m.layout.sub.value;
            && NumOf(s.rateOut).Ok?
            && d[|d| - 1] == DoseRate(m, t).value - NumOf(s.rateOut).value * y[|y| - 1]
            && d[0] == NumOf(s.rateOut).value * y[|y| - 1] - Elimination(m, y[0]) - Sum(d[1..1 + n]))
      && (m.layout.sub.None? ==> d[0] == DoseRate(m, t).value - Elimination(m, y[0]) - Sum(d[1..]))
  {
    var l := m.layout;
    var amounts := OtherAmounts(m, y);
    if l.sub.Some? { RhsWithSub(m, t, y, d); } else { RhsWithoutSub(m, t, y, d); }
    PeripheralsClosedForm(y[0], l.central.volume, amounts, l.others);
    var ds := Peripherals(y[0], l.central.volume, amounts, l.others).value;
    var n := Min(|amounts|, |l.others|);
    if l.sub.Some? {
      assert d[1..1 + n] == ds;
    } else {
      assert d[1..] == ds;
    }
  }

  /** `ode_system` with a subcutaneous compartment, term by term. */
  lemma RhsWithSub(m: ModelState, t: real, y: seq<real>, d: seq<real>)
    requires OdeRhs(m, t, y) == Ok(d) && m.layout.sub.Some?
    ensures |y| >= 1 && DoseRate(m, t).Ok?
    ensures var l := m.layout; var s := l.sub.value;
      && Nonzero(l.central.volume) && NumOf(l.central.rateOut).Ok? && NumOf(s.rateOut).Ok?
      && Peripherals(y[0], l.central.volume, Middle(y), l.others).Ok?
      && var ds := Peripherals(y[0], l.central.volume, Middle(y), l.others).value;
         var outflow := NumOf(s.rateOut).value * y[|y| - 1];
         d == [outflow - Elimination(m, y[0]) - Sum(ds)] + ds + [DoseRate(m, t).value - outflow]
  {
    var l := m.layout;
    var s := l.sub.value;
    var c := y[0];
    var ds := Peripherals(c, l.central.volume, Middle(y), l.others).value;
    var outflow := Mul(s.rateOut, y[|y| - 1]).value;
    var conc := Div(c, l.central.volume).value;
    var elim := Mul(l.central.rateOut, conc).value;
    assert elim == Elimination(m, c);
    assert d == [outflow - elim - Sum(ds)] + ds + [DoseRate(m, t).value - outflow];
  }

  /** `ode_system` without a subcutaneous compartment, term by term. */
  lemma RhsWithoutSub(m: ModelState, t: real, y: seq<real>, d: seq<real>)
    requires OdeRhs(m, t, y) == Ok(d) && m.layout.sub.None?
    ensures |y| >= 1 && DoseRate(m, t).Ok?
    ensures var l := m.layout;
      && Nonzero(l.central.volume) && NumOf(l.central.rateOut).Ok?
      && Peripherals(y[0], l.central.volume, y[1..], l.others).Ok?
      && var ds := Peripherals(y[0], l.central.volume, y[1..], l.others).value;
         d == [DoseRate(m, t).value - Elimination(m, y[0]) - Sum(ds)] + ds
  {
    var l := m.layout;
    var c := y[0];
    var ds := Peripherals(c, l.central.volume, y[1..], l.others).value;
    var conc := Div(c, l.central.volume).value;
    var elim := Mul(l.central.rateOut, conc).value;
    assert elim == Elimination(m, c);
    assert d == [DoseRate(m, t).value - elim - Sum(ds)] + ds;
  }

  /** With one amount per compartment, `ode_system` returns one derivative
      per compartment. */
  lemma RhsLength(m: ModelState, t: real, y: seq<real>, d: seq<real>)
    requires OdeRhs(m, t, y) == Ok(d)
    requires |y| == |StateOrder(m.layout)|
    ensures |d| == |y|
  {
    RhsShape(m, t, y, d);
  }

  /** Mass balance: the flows between compartments cancel, so the derivatives
      add up to the dose rate minus the elimination from the central
      compartment. */
  lemma MassBalance(m: ModelState, t: real, y: seq<real>, d: seq<real>)
    requires OdeRhs(m, t, y) == Ok(d)
    ensures |y| >= 1 && DoseRate(m, t).Ok?
    ensures Nonzero(m.layout.central.volume) && NumOf(m.layout.central.rateOut).Ok?
    ensures Sum(d) == DoseRate(m, t).value - Elimination(m, y[0])
  {
    RhsShape(m, t, y, d);
    var l := m.layout;
    var amounts := OtherAmounts(m, y);
    var ds := Peripherals(y[0], l.central.volume, amounts, l.others).value;
    var n := Min(|amounts|, |l.others|);
    if l.sub.Some? {
      var last := d[|d| - 1];
      assert d == [d[0]] + ds + [last];
      SumAppend([d[0]] + ds, [last]);
      SumAppend([d[0]], ds);
      assert d[1..1 + n] == ds;
    } else {
      assert d == [d[0]] + ds;
      SumAppend([d[0]], ds);
      assert d[1..] == ds;
    }
  }

  /** Two lists of compartments that differ at most in their `rate_out`. */
  predicate SameButRateOut(a: seq<Compartment>, b: seq<Compartment>) {
    |a| == |b| && forall i :: 0 <= i < |a| ==> a[i].(rateOut := b[i].rateOut) == b[i]
  }

  lemma {:induction false} PeripheralsIgnoreRateOut(c: real, vc: Json, amounts: seq<real>, a: seq<Compartment>, b: seq<Compartment>)
    requires SameButRateOut(a, b)
    ensures Peripherals(c, vc, amounts, a) == Peripherals(c, vc, amounts, b)
    decreases |amounts|
  {
    if |amounts| > 0 && |a| > 0 {
      assert a[0].(rateOut := b[0].rateOut) == b[0];
      assert SameButRateOut(a[1..], b[1..]) by {
        forall i | 0 <= i < |a[1..]| ensures a[1..][i].(rateOut := b[1..][i].rateOut) == b[1..][i] {
          assert a[1..][i] == a[i + 1] && b[1..][i] == b[i + 1];
        }
      }
      PeripheralsIgnoreRateOut(c, vc, amounts[1..], a[1..], b[1..]);
    }
  }

  /** The `rate_out` of a peripheral compartment never affects the result. */
  lemma RhsIgnoresPeripheralRateOut(m: ModelState, others: seq<Compartment>, t: real, y: seq<real>)
    requires SameButRateOut(m.layout.others, others)
    ensures OdeRhs(m, t, y) == OdeRhs(m.(layout := m.layout.(others := others)), t, y)
  {
    var m' := m.(layout := m.layout.(others := others));
    assert OtherAmounts(m, y) == OtherAmounts(m', y);
    PeripheralsIgnoreRateOut(if |y| == 0 then 0.0 else y[0], m.layout.central.volume, OtherAmounts(m, y), m.layout.others, others);
  }

  /** As written, `ode_system` agrees with the intended one when there is a
      subcutaneous compartment and raises NameError whenever there is none
      and `y` is not empty. */
  lemma AsWrittenDeviation(m: ModelState, t: real, y: seq<real>)
    ensures m.layout.sub.Some? ==> OdeRhsAsWritten(m, t, y) == OdeRhs(m, t, y)
    ensures m.layout.sub.None? && |y| >= 1 ==> OdeRhsAsWritten(m, t, y) == Err(NameError)
    ensures m.layout.sub.None? && |y| == 0 ==> OdeRhsAsWritten(m, t, y) == OdeRhs(m, t, y)
  {
  }

  /** A one-compartment model with a continuous dose: the intended right-hand
      side is defined and balanced, the one as written raises NameError. */
  lemma NameErrorWitness()
    ensures var cen := Compartment(JStr("plasma"), JStr("central"), JInt(2), JInt(0), JNull, JInt(1));
      var m := ModelState(JInt(0), JInt(4), JStr("continuous"), [cen], Layout(cen, None, []));
      && OdeRhs(m, 0.0, [6.0]) == Ok([1.0])
      && OdeRhsAsWritten(m, 0.0, [6.0]) == Err(NameError)
  {
    var cen := Compartment(JStr("plasma"), JStr("central"), JInt(2), JInt(0), JNull, JInt(1));
    var m := ModelState(JInt(0), JInt(4), JStr("continuous"), [cen], Layout(cen, None, []));
    assert [6.0][1..] == [];
    assert Peripherals(6.0, JInt(2), [], []) == Ok([]);
    assert Div(6.0, JInt(2)) == Ok(3.0);
    assert Mul(JInt(1), 3.0) == Ok(3.0);
    assert Dose(JStr("continuous"), JInt(4), 0.0) == Ok(JInt(4));
    assert NumOf(JInt(4)) == Ok(4.0);
    assert Sum([]) == 0.0;
    assert [4.0 - 3.0 - 0.0] + [] == [1.0];
    assert OdeRhs(m, 0.0, [6.0]) == Ok([1.0]);
    assert OdeRhsAsWritten(m, 0.0, [6.0]) == Err(NameError);
  }

  // ---------------------------------------------------------------------------
  // The initial state of solve

  /** The initial amounts of `cs`, in order. */
  function Amounts(cs: seq<Compartment>): (a: seq<Json>)
    ensures |a| == |cs| && forall i :: 0 <= i < |cs| ==> a[i] == cs[i].initialAmount
  {
    if cs == [] then [] else [cs[0].initialAmount] + Amounts(cs[1..])
  }

  /** The `for c in self.other_compartments: y0.append(c.initial_amount)`
      loop of lines 117-118 and 121-122. */
  method AppendAmounts(prefix: seq<Json>, cs: seq<Compartment>) returns (y: seq<Json>)
    ensures y == prefix + Amounts(cs)
  {
    y := prefix;
    var i := 0;
    while i < |cs|
      invariant 0 <= i <= |cs| && |y| == |prefix| + i
      invariant forall k :: 0 <= k < |prefix| ==> y[k] == prefix[k]
      invariant forall k :: 0 <= k < i ==> y[|prefix| + k] == cs[k].initialAmount
    {
      y := y + [cs[i].initialAmount];
      i := i + 1;
    }
    assert |y| == |prefix + Amounts(cs)|;
  }

  lemma AmountsAppend(a: seq<Compartment>, b: seq<Compartment>)
    ensures Amounts(a + b) == Amounts(a) + Amounts(b)
  {
    var l, r := Amounts(a + b), Amounts(a) + Amounts(b);
    forall k | 0 <= k < |l| ensures l[k] == r[k] {
      if k >= |a| { assert (a + b)[k] == b[k - |a|]; }
    }
    assert |l| == |r|;
  }

  /** The order of lines 115-118: central, subcutaneous, then the others. */
  function InitialOrderAsWritten(l: Layout): (s: seq<Compartment>)
    ensures |s| == |StateOrder(l)|
  {
    [l.central] + (if l.sub.Some? then [l.sub.value] else []) + l.others
  }

  /** The two orders agree exactly when there is no subcutaneous compartment
      or no other compartment (given that the subcutaneous compartment is not
      also one of the others, as its type makes it after parsing). */
  lemma InitialOrdersAgree(l: Layout)
    requires l.sub.Some? ==> forall i :: 0 <= i < |l.others| ==> l.others[i] != l.sub.value
    ensures InitialOrderAsWritten(l) == StateOrder(l) <==> l.sub.None? || l.others == []
  {
    if l.sub.Some? && l.others != [] {
      assert InitialOrderAsWritten(l)[1] == l.sub.value;
      assert StateOrder(l)[1] == l.others[0];
    }
  }

  /** With a subcutaneous compartment and another one, `ode_system` reads the
      subcutaneous amount from the last entry of the state, but `y0` puts the
      subcutaneous initial amount at index 1 and the last other compartment's
      initial amount last. */
  lemma AsWrittenMisplacesSubcutaneous(l: Layout)
    requires l.sub.Some? && |l.others| >= 1
    ensures var y0 := Amounts(InitialOrderAsWritten(l));
      && |y0| == |StateOrder(l)|
      && StateOrder(l)[|y0| - 1] == l.sub.value
      && y0[1] == l.sub.value.initialAmount
      && y0[|y0| - 1] == l.others[|l.others| - 1].initialAmount
  {
  }

  /** A dose placed under the skin with no drug elsewhere: as written, the
      solver starts from an empty subcutaneous compartment and a peripheral
      one holding the dose. */
  lemma InitialStateWitness()
    ensures var cen := Compartment(JStr("plasma"), JStr("central"), JInt(1), JInt(0), JNull, JInt(1));
      var per := Compartment(JStr("tissue"), JStr("peripheral"), JInt(1), JInt(0), JInt(1), JNull);
      var sub := Compartment(JStr("skin"), JStr("subcutaneous"), JInt(1), JInt(100), JNull, JInt(1));
      var l := Layout(cen, Some(sub), [per]);
      && Amounts(InitialOrderAsWritten(l)) == [JInt(0), JInt(100), JInt(0)]
      && Amounts(StateOrder(l)) == [JInt(0), JInt(0), JInt(100)]
  {
  }

  // ---------------------------------------------------------------------------
  // Keying the solver's rows

  /** The dict key a name stands for: Python hashes and compares True, 1 and
      1.0 alike; lists and dicts are unhashable. */
  function KeyOf(v: Json): (r: Result<Json>)
    ensures r.Ok? <==> !v.JList? && !v.JObj?
    ensures r.Err? ==> r.error == TypeError
    ensures v.JStr? || v.JNull? || v.JInt? ==> r == Ok(v)
  {
    match v
    case JBool(b) => Ok(JInt(if b then 1 else 0))
    case JFloat(f) => Ok(if f == f.Floor as real then JInt(f.Floor) else v)
    case JList(_) => Err(TypeError)
    case JObj(_) => Err(TypeError)
    case _ => Ok(v)
  }

  /** The dict after the first `n` iterations of lines 127-128. */
  function KeyedPrefix(cs: seq<Compartment>, rows: seq<seq<real>>, n: nat): Result<map<Json, seq<real>>>
    requires n <= |cs|
  {
    if n == 0 then Ok(map[])
    else
      var table :- KeyedPrefix(cs, rows, n - 1);
      if n - 1 >= |rows| then Err(IndexError)
      else
        var k :- KeyOf(cs[n - 1].name);
        Ok(table[k := rows[n - 1]])
  }

  /** The first error ends the loop: later iterations do not run. */
  lemma {:induction false} KeyedErrorPersists(cs: seq<Compartment>, rows: seq<seq<real>>, i: nat, n: nat)
    requires i <= n <= |cs| && KeyedPrefix(cs, rows, i).Err?
    ensures KeyedPrefix(cs, rows, n) == KeyedPrefix(cs, rows, i)
    decreases n
  {
    if n > i {
      KeyedErrorPersists(cs, rows, i, n - 1);
    }
  }

  /** The dict lines 126-128 build: it exists exactly when the solver gave a
      row per compartment and every name is hashable. */
  function Keyed(cs: seq<Compartment>, rows: seq<seq<real>>): (r: Result<map<Json, seq<real>>>)
    ensures r.Ok? <==> |cs| <= |rows| && forall i :: 0 <= i < |cs| ==> KeyOf(cs[i].name).Ok?
  {
    KeyedOk(cs, rows, |cs|);
    KeyedPrefix(cs, rows, |cs|)
  }

  /** The keys after `n` iterations are the keys of the first `n` names. */
  lemma {:induction false} KeyedKeys(cs: seq<Compartment>, rows: seq<seq<real>>, n: nat)
    requires n <= |cs| && KeyedPrefix(cs, rows, n).Ok?
    ensures forall k :: k in KeyedPrefix(cs, rows, n).value <==> exists i :: 0 <= i < n && KeyOf(cs[i].name) == Ok(k)
  {
    if n > 0 {
      KeyedKeys(cs, rows, n - 1);
      var prev := KeyedPrefix(cs, rows, n - 1).value;
      var k := KeyOf(cs[n - 1].name).value;
      var t := KeyedPrefix(cs, rows, n).value;
      assert t == prev[k := rows[n - 1]];
      forall key ensures key in t <==> exists i :: 0 <= i < n && KeyOf(cs[i].name) == Ok(key) {
        if key in t && key != k {
          assert key in prev;
          var i :| 0 <= i < n - 1 && KeyOf(cs[i].name) == Ok(key);
        }
        if exists i :: 0 <= i < n && KeyOf(cs[i].name) == Ok(key) {
          var i :| 0 <= i < n && KeyOf(cs[i].name) == Ok(key);
          if i < n - 1 { assert key in prev; }
        }
      }
    }
  }

  /** A name that no later compartment repeats keeps its own row. */
  lemma {:induction false} KeyedLast(cs: seq<Compartment>, rows: seq<seq<real>>, n: nat, i: nat)
    requires n <= |cs| && KeyedPrefix(cs, rows, n).Ok? && i < n
    requires forall j :: i < j < n ==> KeyOf(cs[j].name) != KeyOf(cs[i].name)
    ensures KeyOf(cs[i].name).Ok?
    ensures var t := KeyedPrefix(cs, rows, n).value;
      KeyOf(cs[i].name).value in t && t[KeyOf(cs[i].name).value] == rows[i]
  {
    var prev := KeyedPrefix(cs, rows, n - 1);
    assert prev.Ok?;
    var t := KeyedPrefix(cs, rows, n).value;
    assert t == prev.value[KeyOf(cs[n - 1].name).value := rows[n - 1]];
    if i < n - 1 {
      KeyedLast(cs, rows, n - 1, i);
      assert KeyOf(cs[n - 1].name) != KeyOf(cs[i].name);
    }
  }

  lemma {:induction false} KeyedOk(cs: seq<Compartment>, rows: seq<seq<real>>, n: nat)
    requires n <= |cs|
    ensures KeyedPrefix(cs, rows, n).Ok? <==> n <= |rows| && forall i :: 0 <= i < n ==> KeyOf(cs[i].name).Ok?
  {
    if n > 0 {
      KeyedOk(cs, rows, n - 1);
    }
  }

  /** The keying succeeds iff there are enough rows and every name is
      hashable; the keys are the names, and each name holds the row of the
      last compartment with that name. */
  lemma {:induction false} KeyedMeaning(cs: seq<Compartment>, rows: seq<seq<real>>, n: nat)
    requires n <= |cs|
    ensures KeyedPrefix(cs, rows, n).Ok? <==> n <= |rows| && forall i :: 0 <= i < n ==> KeyOf(cs[i].name).Ok?
    ensures var r := KeyedPrefix(cs, rows, n);
      r.Ok? ==>
        && (forall k :: k in r.value <==> exists i :: 0 <= i < n && KeyOf(cs[i].name) == Ok(k))
        && (forall i :: 0 <= i < n && (forall j :: i < j < n ==> KeyOf(cs[j].name) != KeyOf(cs[i].name)) ==>
              KeyOf(cs[i].name).value in r.value && r.value[KeyOf(cs[i].name).value] == rows[i])
  {
    KeyedOk(cs, rows, n);
    if KeyedPrefix(cs, rows, n).Ok? {
      KeyedKeys(cs, rows, n);
      forall i | 0 <= i < n && (forall j :: i < j < n ==> KeyOf(cs[j].name) != KeyOf(cs[i].name))
        ensures KeyOf(cs[i].name).Ok? && KeyOf(cs[i].name).value in KeyedPrefix(cs, rows, n).value
        ensures KeyedPrefix(cs, rows, n).value[KeyOf(cs[i].name).value] == rows[i]
      {
        KeyedLast(cs, rows, n, i);
      }
    }
  }

  // ---------------------------------------------------------------------------
  // The model built from an accepted configuration

  /** A flag equal to 1 is truthy. */
  lemma EqualsOneTruthy(v: Json)
    ensures EqualsOne(v) ==> Truthy(v)
  {
  }

  lemma {:induction false} OfTypeFacts(s: seq<Record>, k: string)
    ensures forall i :: 0 <= i < |OfType(s, k)| ==> OfType(s, k)[i] in s && TypeKey(OfType(s, k)[i]) == k
  {
    if s != [] {
      OfTypeFacts(s[1..], k);
      var o, t := OfType(s, k), OfType(s[1..], k);
      assert forall x :: x in t ==> x in s[1..] ==> x in s;
      if TypeKey(s[0]) == k {
        assert o == [s[0]] + t;
        forall i | 1 <= i < |o| ensures o[i] == t[i - 1] { }
      } else {
        assert o == t;
      }
    }
  }

  /** The filled records of one type all have that type and every key
      `Compartment.__init__` needs. */
  lemma FilledKinds(rs: seq<Record>, k: string)
    requires AllTyped(rs) && k != ""
    ensures forall i :: 0 <= i < |FillAll(OfType(rs, k))| ==>
      TypeOf(FillAll(OfType(rs, k))[i]) == JStr(k) && HasRequired(FillAll(OfType(rs, k))[i])
  {
    OfTypeFacts(rs, k);
    var f := FillAll(OfType(rs, k));
    forall i | 0 <= i < |f| ensures TypeOf(f[i]) == JStr(k) && HasRequired(f[i]) {
      var x := OfType(rs, k)[i];
      assert x in rs;
      FillKeepsType(x);
      TypeOfString(Fill(x), k);
      FillLookup(x, "name");
      FillLookup(x, "volume");
      FillLookup(x, "initial_amount");
      FillLookup(x, "rate_out");
    }
  }

  /** What a successful `construct` hands to `Model.__init__`: a flag, a
      valid dose, and the records in their three groups. */
  lemma ParsedParts(c: Config, p: Parsed)
    requires ConstructSpec(c) == Ok(p)
    ensures HasFlag(p.basic) && DoseOk(p.basic)
    ensures var rs := RecordsOf(CompartmentValues(c));
      && AllTyped(rs)
      && |OfType(rs, "central")| == 1
      && |OfType(rs, "subcutaneous")| == (if EqualsOne(Flag(p.basic)) then 1 else 0)
      && p.compartments == FillAll(OfType(rs, "central")) + FillAll(OfType(rs, "peripheral")) + FillAll(OfType(rs, "subcutaneous"))
  {
    ConstructResultLayout(c, p);
    ParsedBasic(c, p);
    var vs := CompartmentValues(c);
    var rs := RecordsOf(vs);
    ConstructSteps(c);
    assert KeyedRecords(vs).Ok?;
    assert AllTyped(rs) by {
      forall i | 0 <= i < |rs| ensures HasKey(rs[i], "type") {
        assert vs[i].JObj? && HasKey(vs[i].entries, "type");
      }
    }
  }

  lemma ParsedBasic(c: Config, p: Parsed)
    requires ConstructSpec(c) == Ok(p)
    ensures HasFlag(p.basic) && DoseOk(p.basic)
  {
    ConstructSteps(c);
    var basic := Lookup(c, "basic_parameters").value;
    var cs := FillAll(SortByType(KeyedRecords(CompartmentValues(c)).value));
    ValidateOk(basic, cs);
    assert p == Parsed(basic, cs);
    FlagCheck(basic, cs);
    DoseChecks(basic);
  }

  /** Every record `construct` returns passed the checks of lines 45-49. */
  lemma ParsedChecked(c: Config, p: Parsed)
    requires ConstructSpec(c) == Ok(p)
    ensures forall i :: 0 <= i < |p.compartments| ==> CheckOne(p.compartments[i]).Pass?
  {
    ConstructSteps(c);
    var basic := Lookup(c, "basic_parameters").value;
    var cs := FillAll(SortByType(KeyedRecords(CompartmentValues(c)).value));
    ValidateOk(basic, cs);
    assert p == Parsed(basic, cs);
  }

  /** A list is the compartment list of `rs` when it holds, in order, the
      compartment of each record. */
  lemma CompartmentsAre(rs: seq<Record>, xs: seq<Compartment>)
    requires forall i :: 0 <= i < |rs| ==> HasRequired(rs[i])
    requires |xs| == |rs| && forall i :: 0 <= i < |rs| ==> xs[i] == FromAttributes(rs[i])
    ensures Compartments(rs) == Ok(xs)
  {
    assert Compartments(rs).Ok?;
    var x := Compartments(rs).value;
    assert |x| == |xs|;
    forall i | 0 <= i < |rs| ensures x[i] == xs[i] { }
    assert x == xs;
  }

  lemma CompartmentsAppend(a: seq<Record>, b: seq<Record>)
    requires Compartments(a).Ok? && Compartments(b).Ok?
    ensures Compartments(a + b) == Ok(Compartments(a).value + Compartments(b).value)
  {
    var y := Compartments(a).value + Compartments(b).value;
    forall i | 0 <= i < |a + b| ensures HasRequired((a + b)[i]) && y[i] == FromAttributes((a + b)[i]) {
      if i < |a| { CompartmentFront(a, b, i); } else { CompartmentBack(a, b, i); }
    }
    CompartmentsAre(a + b, y);
  }

  lemma CompartmentFront(a: seq<Record>, b: seq<Record>, i: nat)
    requires Compartments(a).Ok? && Compartments(b).Ok? && i < |a|
    ensures HasRequired((a + b)[i])
    ensures (Compartments(a).value + Compartments(b).value)[i] == FromAttributes((a + b)[i])
  {
    assert (a + b)[i] == a[i];
  }

  lemma CompartmentBack(a: seq<Record>, b: seq<Record>, i: nat)
    requires Compartments(a).Ok? && Compartments(b).Ok? && |a| <= i < |a| + |b|
    ensures HasRequired((a + b)[i])
    ensures (Compartments(a).value + Compartments(b).value)[i] == FromAttributes((a + b)[i])
  {
    var j := i - |a|;
    assert HasRequired(b[j]) && Compartments(b).value[j] == FromAttributes(b[j]);
    assert (a + b)[i] == b[j];
  }

  /** The compartment objects made from the filled records of one type. */
  lemma GroupCompartments(rs: seq<Record>, k: string)
    requires AllTyped(rs) && k != ""
    ensures var g := Compartments(FillAll(OfType(rs, k)));
      && g.Ok? && |g.value| == |OfType(rs, k)|
      && forall i :: 0 <= i < |g.value| ==> g.value[i].kind == JStr(k)
  {
    FilledKinds(rs, k);
    var f := FillAll(OfType(rs, k));
    var g := Compartments(f).value;
    forall i | 0 <= i < |g| ensures g[i].kind == JStr(k) {
      assert g[i] == FromAttributes(f[i]);
    }
  }

  /** The compartment objects of the three groups, in order, with their kinds. */
  lemma ParsedCompartments(c: Config, p: Parsed)
    requires ConstructSpec(c) == Ok(p)
    ensures HasFlag(p.basic)
    ensures var rs := RecordsOf(CompartmentValues(c));
      var cen := Compartments(FillAll(OfType(rs, "central")));
      var per := Compartments(FillAll(OfType(rs, "peripheral")));
      var sub := Compartments(FillAll(OfType(rs, "subcutaneous")));
      && cen.Ok? && per.Ok? && sub.Ok?
      && |cen.value| == 1 && cen.value[0].kind == JStr("central")
      && |sub.value| == (if EqualsOne(Flag(p.basic)) then 1 else 0)
      && (forall i :: 0 <= i < |per.value| ==> per.value[i].kind == JStr("peripheral"))
      && (forall i :: 0 <= i < |sub.value| ==> sub.value[i].kind == JStr("subcutaneous"))
      && Compartments(p.compartments) == Ok(cen.value + per.value + sub.value)
  {
    ParsedParts(c, p);
    var rs := RecordsOf(CompartmentValues(c));
    var fc := FillAll(OfType(rs, "central"));
    var fp := FillAll(OfType(rs, "peripheral"));
    var fs := FillAll(OfType(rs, "subcutaneous"));
    GroupCompartments(rs, "central");
    GroupCompartments(rs, "peripheral");
    GroupCompartments(rs, "subcutaneous");
    CompartmentsAppend(fc, fp);
    CompartmentsAppend(fc + fp, fs);
  }

  /** The model built from a successful parse: its flag and dose are read
      from `basic_parameters`, its compartment list from the records. */
  lemma ParsedInit(c: Config, p: Parsed)
    requires ConstructSpec(c) == Ok(p)
    ensures HasFlag(p.basic) && DoseOk(p.basic)
    ensures Init(p.basic, p.compartments).Ok? && Compartments(p.compartments).Ok?
    ensures var m := Init(p.basic, p.compartments).value;
      var dose := Lookup(p.basic.entries, "dose").value;
      && m.flag == Flag(p.basic)
      && m.doseConstant == dose.items[0] && m.doseType == dose.items[1]
      && m.compartmentList == Compartments(p.compartments).value
      && Partition(m.flag, m.compartmentList) == Ok(m.layout)
  {
    ParsedBasic(c, p);
    ParsedCompartments(c, p);
    var cs := p.compartments;
    assert |Compartments(cs).value| >= 1;
    assert |cs| >= 1 && forall i :: 0 <= i < |cs| ==> HasRequired(cs[i]);
    var dose := Lookup(p.basic.entries, "dose").value;
    assert DoseReadable(p.basic);
    assert Subscript(dose, 0).value == dose.items[0] && Subscript(dose, 1).value == dose.items[1];
  }

  /** A record that passed the volume check gives a compartment whose
      volume can be divided by. */
  lemma CheckedVolumes(rs: seq<Record>)
    requires Compartments(rs).Ok?
    requires forall i :: 0 <= i < |rs| ==> CheckOne(rs[i]).Pass?
    ensures var list := Compartments(rs).value;
      forall i :: 0 <= i < |list| ==> Nonzero(list[i].volume)
  {
    var list := Compartments(rs).value;
    forall i | 0 <= i < |list| ensures Nonzero(list[i].volume) {
      assert CheckOne(rs[i]).Pass?;
      assert list[i] == FromAttributes(rs[i]);
      assert list[i].volume == Attr(rs[i], "volume");
    }
  }

  /** Every compartment object built from a successful parse has a volume
      that can be divided by. */
  lemma ParsedVolumes(c: Config, p: Parsed)
    requires ConstructSpec(c) == Ok(p)
    ensures Compartments(p.compartments).Ok?
    ensures var list := Compartments(p.compartments).value;
      forall i :: 0 <= i < |list| ==> Nonzero(list[i].volume)
  {
    ParsedInit(c, p);
    ParsedChecked(c, p);
    CheckedVolumes(p.compartments);
  }

  /** A configuration `construct` accepts always builds a model, whose every
      compartment has a positive volume and whose dose rate is defined at
      every time: the constant for a continuous dose, and for a bolus the
      constant at t == 0 and zero elsewhere. */
  lemma LoadSucceeds(c: Config, t: real)
    requires ConstructSpec(c).Ok?
    ensures InitAfter(ConstructSpec(c)).Ok?
    ensures var m := InitAfter(ConstructSpec(c)).value;
      && (forall i :: 0 <= i < |m.compartmentList| ==> Nonzero(m.compartmentList[i].volume))
      && DoseRate(m, t).Ok? && DoseRate(m, t).value >= 0.0
      && (DoseRate(m, t).value > 0.0 <==> m.doseType == JStr("continuous") || t == 0.0)
  {
    var p := ConstructSpec(c).value;
    ParsedInit(c, p);
    ParsedVolumes(c, p);
    var m := Init(p.basic, p.compartments).value;
    DoseSchedule(m.doseType, m.doseConstant, t);
  }

  /** Partitioning a list made of one central compartment, the peripheral
      ones and, exactly when the flag is 1, one subcutaneous compartment. */
  lemma PartitionGroups(flag: Json, cen: seq<Compartment>, per: seq<Compartment>, sub: seq<Compartment>)
    requires EqualsOne(flag) || !Truthy(flag)
    requires |cen| == 1 && |sub| == (if EqualsOne(flag) then 1 else 0)
    ensures var l := Partition(flag, cen + per + sub);
      && l.Ok? && l.value.central == cen[0] && l.value.others == per
      && (l.value.sub.Some? <==> EqualsOne(flag))
      && (l.value.sub.Some? ==> l.value.sub.value == sub[0])
      && StateOrder(l.value) == cen + per + sub
  {
    var list := cen + per + sub;
    EqualsOneTruthy(flag);
    if EqualsOne(flag) {
      assert list[1..|list| - 1] == per;
    } else {
      assert list[1..] == per;
    }
  }

  /** With a flag that is 1, or false/0, the model's roles are the parser's:
      central first, the subcutaneous compartment exactly when the flag is 1,
      the other compartments the peripheral records in configuration order;
      and the state order of `ode_system` is the compartment list, so row i
      of the solver is keyed by the compartment whose amount it holds. */
  lemma LoadedRoles(c: Config)
    requires ConstructSpec(c).Ok?
    requires var b := ConstructSpec(c).value.basic; HasFlag(b) && (EqualsOne(Flag(b)) || !Truthy(Flag(b)))
    ensures InitAfter(ConstructSpec(c)).Ok?
    ensures var m := InitAfter(ConstructSpec(c)).value;
      var rs := RecordsOf(CompartmentValues(c));
      && m.layout.central.kind == JStr("central")
      && (m.layout.sub.Some? <==> EqualsOne(m.flag))
      && (m.layout.sub.Some? ==> m.layout.sub.value.kind == JStr("subcutaneous"))
      && Ok(m.layout.others) == Compartments(FillAll(OfType(rs, "peripheral")))
      && (forall i :: 0 <= i < |m.layout.others| ==> m.layout.others[i].kind == JStr("peripheral"))
      && StateOrder(m.layout) == m.compartmentList
  {
    var p := ConstructSpec(c).value;
    ParsedInit(c, p);
    ParsedCompartments(c, p);
    var rs := RecordsOf(CompartmentValues(c));
    var cen := Compartments(FillAll(OfType(rs, "central"))).value;
    var per := Compartments(FillAll(OfType(rs, "peripheral"))).value;
    var sub := Compartments(FillAll(OfType(rs, "subcutaneous"))).value;
    PartitionGroups(Flag(p.basic), cen, per, sub);
  }

  /** With a truthy flag and no subcutaneous group, the compartment taken
      as subcutaneous is the last one, central or peripheral. */
  lemma LastOfGroups(flag: Json, cen: seq<Compartment>, per: seq<Compartment>)
    requires Truthy(flag)
    requires |cen| == 1 && cen[0].kind == JStr("central")
    requires forall i :: 0 <= i < |per| ==> per[i].kind == JStr("peripheral")
    ensures var list := cen + per; var l := Partition(flag, list);
      && l.Ok? && l.value.sub == Some(list[|list| - 1])
      && list[|list| - 1].kind != JStr("subcutaneous")
  {
    var list := cen + per;
    if |per| >= 1 {
      assert list[|list| - 1] == per[|per| - 1];
    } else {
      assert list == cen;
    }
  }

  /** The model tests the flag for truth, the parser compares it with 1: for
      a flag such as 2 the parser requires that no compartment is
      subcutaneous, and the model still takes the last compartment, central
      or peripheral, as the subcutaneous one. */
  lemma TruthyFlagNotOne(c: Config)
    requires ConstructSpec(c).Ok?
    requires var b := ConstructSpec(c).value.basic; HasFlag(b) && Truthy(Flag(b)) && !EqualsOne(Flag(b))
    ensures InitAfter(ConstructSpec(c)).Ok?
    ensures var m := InitAfter(ConstructSpec(c)).value;
      && |m.compartmentList| >= 1
      && m.layout.sub == Some(m.compartmentList[|m.compartmentList| - 1])
      && m.layout.sub.value.kind != JStr("subcutaneous")
  {
    TruthyParsed(c, ConstructSpec(c).value);
  }

  lemma TruthyParsed(c: Config, p: Parsed)
    requires ConstructSpec(c) == Ok(p) && HasFlag(p.basic) && Truthy(Flag(p.basic)) && !EqualsOne(Flag(p.basic))
    ensures Init(p.basic, p.compartments).Ok?
    ensures var m := Init(p.basic, p.compartments).value;
      && |m.compartmentList| >= 1
      && m.layout.sub == Some(m.compartmentList[|m.compartmentList| - 1])
      && m.layout.sub.value.kind != JStr("subcutaneous")
  {
    ParsedInit(c, p);
    ParsedCompartments(c, p);
    var rs := RecordsOf(CompartmentValues(c));
    var cen := Compartments(FillAll(OfType(rs, "central"))).value;
    var per := Compartments(FillAll(OfType(rs, "peripheral"))).value;
    var sub := Compartments(FillAll(OfType(rs, "subcutaneous"))).value;
    assert sub == [];
    assert cen + per + sub == cen + per;
    var m := Init(p.basic, p.compartments).value;
    assert m.flag == Flag(p.basic) && m.compartmentList == cen + per;
    LastOfGroups(m.flag, cen, per);
  }
}
