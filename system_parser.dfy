/**
 * `Parser.construct` of PKPy/system_parser.py: it takes the decoded system
 * configuration (an ordered dict from names to records), drops
 * `basic_parameters`, stably sorts the compartment records by type, fills
 * absent attributes with None and validates the result, raising ValueError on
 * the first failed check.
 */
module SystemParser {
  import opened PyValues
  import opened TypeOrder

  /** The decoded top-level JSON object, in file order. */
  type Config = seq<(string, Json)>

  /** The parser's return value `[basic_pars, compartments_sorted]`. */
  datatype Parsed = Parsed(basic: Json, compartments: seq<Record>)

  /** The six attributes every compartment record ends up with. */
  const Attributes: seq<string> := ["name", "type", "volume", "initial_amount", "rate_in", "rate_out"]

  /** The three accepted compartment types. */
  const Roles: seq<Json> := [JStr("central"), JStr("subcutaneous"), JStr("peripheral")]

  const Schedules: seq<Json> := [JStr("bolus"), JStr("continuous")]

  // ---------------------------------------------------------------------------
  // Reading the configuration

  /** `del cfg[k]` on a copy: the one entry with key `k` goes, every other
      entry stays, in order. */
  function RemoveKey(c: Config, k: string): (r: Config)
    ensures forall i :: 0 <= i < |r| ==> r[i].0 != k
    ensures !HasKey(c, k) ==> r == c
    ensures forall i :: 0 <= i < |c| && c[i].0 == k && (forall j :: 0 <= j < |c| && j != i ==> c[j].0 != k) ==>
      r == c[..i] + c[i + 1..]
  {
    if c == [] then []
    else
      assert forall i :: 1 <= i < |c| ==> c[1..][i - 1] == c[i];
      if c[0].0 == k then RemoveKey(c[1..], k)
      else [c[0]] + RemoveKey(c[1..], k)
  }

  /** Removing `k` leaves `d[k']` unchanged for every other key `k'`. */
  lemma {:induction false} RemoveKeyLookup(c: Config, k: string, k': string)
    requires k' != k
    ensures Lookup(RemoveKey(c, k), k') == Lookup(c, k')
  {
    if c != [] {
      RemoveKeyLookup(c[1..], k, k');
    }
  }

  /** `list(cfg.values())`. */
  function Values(c: Config): (r: seq<Json>)
    ensures |r| == |c| && forall i :: 0 <= i < |c| ==> r[i] == c[i].1
  {
    if c == [] then [] else [c[0].1] + Values(c[1..])
  }

  /** The compartment values: every value but `basic_parameters`, in order. */
  function CompartmentValues(c: Config): seq<Json> {
    Values(RemoveKey(c, "basic_parameters"))
  }

  /** The value `d['type']`, for records known to have one. */
  function TypeOf(r: Record): Json {
    match Lookup(r, "type")
    case Ok(v) => v
    case _ => JNull
  }

  /** Evaluates the sort key on each value in order: TypeError for a value
      that is not a dict, KeyError for a dict without `type`. */
  function KeyedRecords(vs: seq<Json>): (r: Result<seq<Record>>)
    ensures r.Ok? <==> forall i :: 0 <= i < |vs| ==> vs[i].JObj? && HasKey(vs[i].entries, "type")
    ensures r.Ok? ==> |r.value| == |vs| && forall i :: 0 <= i < |vs| ==> r.value[i] == vs[i].entries
  {
    if vs == [] then Ok([])
    else match vs[0]
      case JObj(e) =>
        if !HasKey(e, "type") then Err(KeyError)
        else
          var rest :- KeyedRecords(vs[1..]);
          assert forall i :: 1 <= i < |vs| ==> vs[1..][i - 1] == vs[i];
          Ok([e] + rest)
      case _ => Err(TypeError)
  }

  predicate StringTyped(rs: seq<Record>) {
    forall i :: 0 <= i < |rs| ==> TypeOf(rs[i]).JStr?
  }

  /** `sorted(compartments, key=lambda d: d['type'])`. Comparing a non-string
      type with anything raises TypeError; a single record is never compared.
      The result is the records, ordered by type. */
  function SortCompartments(vs: seq<Json>): (r: Result<seq<Record>>)
    ensures r.Ok? <==> KeyedRecords(vs).Ok? && (|vs| <= 1 || StringTyped(KeyedRecords(vs).value))
    ensures r.Err? && KeyedRecords(vs).Ok? ==> r.error == TypeError
    ensures r.Ok? ==> SortedByType(r.value) && multiset(r.value) == multiset(KeyedRecords(vs).value)
  {
    var rs :- KeyedRecords(vs);
    SortByTypeSortedPermutation(rs);
    if |rs| >= 2 && !StringTyped(rs) then Err(TypeError) else Ok(SortByType(rs))
  }

  // ---------------------------------------------------------------------------
  // Filling absent attributes

  /** The attributes among `attrs` that `r` lacks. */
  function MissingFrom(r: Record, attrs: seq<string>): seq<string> {
    if attrs == [] then []
    else (if HasKey(r, attrs[0]) then [] else [attrs[0]]) + MissingFrom(r, attrs[1..])
  }

  lemma {:induction false} MissingFromMembers(r: Record, attrs: seq<string>, a: string)
    ensures a in MissingFrom(r, attrs) <==> a in attrs && !HasKey(r, a)
  {
    if attrs != [] {
      MissingFromMembers(r, attrs[1..], a);
      assert attrs == [attrs[0]] + attrs[1..];
    }
  }

  function NoneEntries(ks: seq<string>): (e: Record)
    ensures |e| == |ks| && forall i :: 0 <= i < |ks| ==> e[i] == (ks[i], JNull)
  {
    if ks == [] then [] else [(ks[0], JNull)] + NoneEntries(ks[1..])
  }

  /** `i.update({attribute: None})` for each absent attribute. Python appends
      them in set-iteration order; here they follow `Attributes`. The record's
      own entries stay in place and every added one is None. */
  function Fill(r: Record): (f: Record)
    ensures |f| >= |r| && f[..|r|] == r
    ensures forall i :: |r| <= i < |f| ==> f[i].1 == JNull
  {
    r + NoneEntries(MissingFrom(r, Attributes))
  }

  function FillAll(rs: seq<Record>): (r: seq<Record>)
    ensures |r| == |rs| && forall i :: 0 <= i < |rs| ==> r[i] == Fill(rs[i])
  {
    if rs == [] then [] else [Fill(rs[0])] + FillAll(rs[1..])
  }

  lemma {:induction false} LookupAppend(r: Record, t: Record, k: string)
    ensures Lookup(r + t, k) == if HasKey(r, k) then Lookup(r, k) else Lookup(t, k)
    ensures HasKey(r + t, k) <==> HasKey(r, k) || HasKey(t, k)
  {
    if r != [] {
      assert (r + t)[1..] == r[1..] + t;
      LookupAppend(r[1..], t, k);
      assert HasKey(r, k) <==> r[0].0 == k || HasKey(r[1..], k) by {
        if HasKey(r, k) && r[0].0 != k {
          var i :| 0 <= i < |r| && r[i].0 == k;
          assert r[1..][i - 1].0 == k;
        }
        if HasKey(r[1..], k) {
          var i :| 0 <= i < |r[1..]| && r[1..][i].0 == k;
          assert r[i + 1].0 == k;
        }
      }
      assert HasKey(r + t, k) <==> (r + t)[0].0 == k || HasKey((r + t)[1..], k) by {
        var u := r + t;
        if HasKey(u, k) && u[0].0 != k {
          var i :| 0 <= i < |u| && u[i].0 == k;
          assert u[1..][i - 1].0 == k;
        }
        if HasKey(u[1..], k) {
          var i :| 0 <= i < |u[1..]| && u[1..][i].0 == k;
          assert u[i + 1].0 == k;
        }
      }
    } else {
      assert r + t == t;
    }
  }

  lemma {:induction false} LookupNoneEntries(ks: seq<string>, k: string)
    ensures Lookup(NoneEntries(ks), k) == if k in ks then Ok(JNull) else Err(KeyError)
  {
    if ks != [] {
      LookupNoneEntries(ks[1..], k);
      assert NoneEntries(ks)[1..] == NoneEntries(ks[1..]);
    }
  }

  /** After filling, each of the six attributes is present; an attribute that
      was present keeps its value, an absent one is None, and no other key is
      added. */
  lemma FillLookup(r: Record, k: string)
    ensures Lookup(Fill(r), k) ==
      if HasKey(r, k) then Lookup(r, k)
      else if k in Attributes then Ok(JNull)
      else Err(KeyError)
    ensures k in Attributes ==> HasKey(Fill(r), k)
  {
    var m := MissingFrom(r, Attributes);
    MissingFromMembers(r, Attributes, k);
    LookupAppend(r, NoneEntries(m), k);
    LookupNoneEntries(m, k);
  }

  lemma FillKeepsType(r: Record)
    requires HasKey(r, "type")
    ensures TypeOf(Fill(r)) == TypeOf(r) && TypeKey(Fill(r)) == TypeKey(r)
  {
    FillLookup(r, "type");
  }

  // ---------------------------------------------------------------------------
  // The checks, in the order the source runs them

  /** The flag must equal 1 exactly when the last sorted compartment is
      subcutaneous. Reading the flag raises KeyError or TypeError, reading the
      last compartment of an empty list IndexError, a mismatch ValueError. */
  function CheckFlag(basic: Json, cs: seq<Record>): (o: Outcome)
    ensures o.Fail? ==>
      o.error == (if !HasFlag(basic) then (if basic.JObj? then KeyError else TypeError)
                  else if cs == [] then IndexError
                  else ValueError(FlagMismatch))
  {
    match GetKey(basic, "subcutaneous")
    case Err(e) => Fail(e)
    case Ok(f) =>
      if cs == [] then Fail(IndexError)
      else if EqualsOne(f) != (TypeOf(cs[|cs| - 1]) == JStr("subcutaneous")) then Fail(ValueError(FlagMismatch))
      else Pass
  }

  predicate PositiveNumber(v: Json) {
    (v.JInt? && v.i > 0) || (v.JFloat? && v.f > 0.0)
  }

  /** `basic_pars['dose'][i]`. */
  function DoseField(basic: Json, i: nat): Result<Json> {
    var d :- GetKey(basic, "dose");
    Subscript(d, i)
  }

  /** `type(dose[0]) in [int, float]` and `dose[0] > 0`: a readable amount
      that is not a positive int or float raises ValueError. */
  function CheckDoseAmount(basic: Json): (o: Outcome)
    ensures o.Pass? <==> DoseField(basic, 0).Ok? && PositiveNumber(DoseField(basic, 0).value)
    ensures o.Fail? && DoseField(basic, 0).Ok? ==> o.error == ValueError(DoseAmount)
  {
    match DoseField(basic, 0)
    case Err(e) => Fail(e)
    case Ok(a) => if PositiveNumber(a) then Pass else Fail(ValueError(DoseAmount))
  }

  /** `dose[1] in ["bolus", "continuous"]`: a readable schedule that is
      neither raises ValueError. */
  function CheckDoseSchedule(basic: Json): (o: Outcome)
    ensures o.Pass? <==> DoseField(basic, 1).Ok? && DoseField(basic, 1).value in Schedules
    ensures o.Fail? && DoseField(basic, 1).Ok? ==> o.error == ValueError(DoseSchedule)
  {
    match DoseField(basic, 1)
    case Err(e) => Fail(e)
    case Ok(s) => if s in Schedules then Pass else Fail(ValueError(DoseSchedule))
  }

  /** `[i['type'] for i in cs].count(role)`. */
  function CountType(cs: seq<Record>, role: Json): nat {
    if cs == [] then 0 else (if TypeOf(cs[0]) == role then 1 else 0) + CountType(cs[1..], role)
  }

  /** Exactly one compartment must be central. */
  function CheckCentralCount(cs: seq<Record>): (o: Outcome)
    ensures o.Pass? <==> CountType(cs, JStr("central")) == 1
    ensures o.Fail? ==> o.error == ValueError(CentralCount)
  {
    if CountType(cs, JStr("central")) != 1 then Fail(ValueError(CentralCount)) else Pass
  }

  /** At most one compartment may be subcutaneous. */
  function CheckSubcutaneousCount(cs: seq<Record>): (o: Outcome)
    ensures o.Pass? <==> CountType(cs, JStr("subcutaneous")) <= 1
    ensures o.Fail? ==> o.error == ValueError(SubcutaneousCount)
  {
    if CountType(cs, JStr("subcutaneous")) > 1 then Fail(ValueError(SubcutaneousCount)) else Pass
  }

  /** `compartment[k]` for an attribute the record is known to have. */
  function Attr(r: Record, k: string): Json {
    match Lookup(r, k)
    case Ok(v) => v
    case _ => JNull
  }

  /** One compartment's checks: its type is a role, its volume is a positive
      number (None fails, a non-number raises TypeError on `<= 0`). */
  function CheckOne(r: Record): (o: Outcome)
    ensures o.Pass? <==>
      TypeOf(r) in Roles && NumOf(Attr(r, "volume")).Ok? && NumOf(Attr(r, "volume")).value > 0.0
    ensures o.Fail? ==>
      o.error == (if TypeOf(r) !in Roles then ValueError(BadType(Attr(r, "name")))
                  else if Attr(r, "volume") == JNull || NumOf(Attr(r, "volume")).Ok? then ValueError(BadVolume(Attr(r, "name")))
                  else TypeError)
  {
    if TypeOf(r) !in Roles then Fail(ValueError(BadType(Attr(r, "name"))))
    else
      var v := Attr(r, "volume");
      if v == JNull then Fail(ValueError(BadVolume(Attr(r, "name"))))
      else match NumOf(v)
        case Err(e) => Fail(e)
        case Ok(n) => if n <= 0.0 then Fail(ValueError(BadVolume(Attr(r, "name")))) else Pass
  }

  /** The final loop: the first compartment that fails decides the error. */
  function CheckEach(cs: seq<Record>): (o: Outcome)
    ensures o.Pass? <==> forall i :: 0 <= i < |cs| ==> CheckOne(cs[i]).Pass?
  {
    if cs == [] then Pass
    else if CheckOne(cs[0]).Fail? then CheckOne(cs[0])
    else
      assert forall i :: 1 <= i < |cs| ==> cs[1..][i - 1] == cs[i];
      CheckEach(cs[1..])
  }

  /** The validation loop of `construct` (lines 45-49). */
  method ValidateCompartments(cs: seq<Record>) returns (o: Outcome)
    ensures o == CheckEach(cs)
  {
    var i := 0;
    while i < |cs|
      invariant 0 <= i <= |cs|
      invariant CheckEach(cs) == CheckEach(cs[i..])
    {
      assert cs[i..][1..] == cs[i + 1..];
      var one := CheckOne(cs[i]);
      if one.Fail? {
        return one;
      }
      i := i + 1;
    }
    return Pass;
  }

  // ---------------------------------------------------------------------------
  // construct

  /** What `Parser.construct` returns or raises for the configuration `c`. */
  function ConstructSpec(c: Config): (r: Result<Parsed>)
    ensures !HasKey(c, "basic_parameters") ==> r == Err(KeyError)
  {
    var basic :- Lookup(c, "basic_parameters");
    var sorted :- SortCompartments(CompartmentValues(c));
    Validate(basic, FillAll(sorted))
  }

  /** The checks of lines 33-49 on the filled, sorted compartments. */
  function Validate(basic: Json, cs: seq<Record>): Result<Parsed> {
    var flag := CheckFlag(basic, cs);
    :- flag;
    :- CheckDoseAmount(basic);
    :- CheckDoseSchedule(basic);
    :- CheckCentralCount(cs);
    :- CheckSubcutaneousCount(cs);
    :- CheckEach(cs);
    Ok(Parsed(basic, cs))
  }

  /** True iff `construct` gets as far as the attribute-filling loop. */
  predicate ReachesFill(c: Config) {
    Lookup(c, "basic_parameters").Ok? && SortCompartments(CompartmentValues(c)).Ok?
  }

  /** The configuration after the filling loop: `construct` copies the top
      level only, so the records it updates are the ones the parser holds. */
  function FillConfig(c: Config): (r: Config)
    ensures |r| == |c|
    ensures forall i :: 0 <= i < |c| ==>
      && r[i].0 == c[i].0
      && r[i].1 == if c[i].0 != "basic_parameters" && c[i].1.JObj? then JObj(Fill(c[i].1.entries)) else c[i].1
  {
    if c == [] then []
    else
      assert forall i :: 1 <= i < |c| ==> c[1..][i - 1] == c[i];
      var e := if c[0].0 != "basic_parameters" && c[0].1.JObj? then (c[0].0, JObj(Fill(c[0].1.entries))) else c[0];
      [e] + FillConfig(c[1..])
  }

  /** The parser object: the configuration it was given, decoded. */
  class Parser {
    var sysConfig: Config

    /** Replaces reading and decoding the file with the decoded content. */
    constructor (config: Config)
      ensures sysConfig == config
    {
      sysConfig := config;
    }

    method Construct() returns (r: Result<Parsed>)
      modifies this
      ensures r == ConstructSpec(old(sysConfig))
      ensures sysConfig == if ReachesFill(old(sysConfig)) then FillConfig(old(sysConfig)) else old(sysConfig)
    {
      var basic :- Lookup(sysConfig, "basic_parameters");
      var copy := sysConfig;
      copy := RemoveKey(copy, "basic_parameters");
      var compartments := Values(copy);
      var sorted :- SortCompartments(compartments);
      var filled := FillRecords(sorted);
      assert ConstructSpec(old(sysConfig)) == Validate(basic, filled);
      sysConfig := FillConfig(sysConfig);
      r := ValidateParsed(basic, filled);
    }
  }

  /** The filling loop: every sorted record gets its missing attributes. */
  method FillRecords(sorted: seq<Record>) returns (filled: seq<Record>)
    ensures filled == FillAll(sorted)
  {
    filled := [];
    var i := 0;
    while i < |sorted|
      invariant 0 <= i <= |sorted|
      invariant |filled| == i && forall k :: 0 <= k < i ==> filled[k] == Fill(sorted[k])
    {
      filled := filled + [Fill(sorted[i])];
      i := i + 1;
    }
    assert |filled| == |FillAll(sorted)|;
  }

  /** The checks of lines 33-49, run one after the other. */
  method ValidateParsed(basic: Json, filled: seq<Record>) returns (r: Result<Parsed>)
    ensures r == Validate(basic, filled)
  {
    var flag := CheckFlag(basic, filled);
    :- flag;
    :- CheckDoseAmount(basic);
    :- CheckDoseSchedule(basic);
    :- CheckCentralCount(filled);
    :- CheckSubcutaneousCount(filled);
    var each := ValidateCompartments(filled);
    if each.Fail? {
      return Err(each.error);
    }
    return Ok(Parsed(basic, filled));
  }

  // ---------------------------------------------------------------------------
  // Properties of construct

  /** The records of the compartment values (a non-dict stands for no record). */
  function RecordsOf(vs: seq<Json>): (rs: seq<Record>)
    ensures |rs| == |vs| && forall i :: 0 <= i < |vs| ==> rs[i] == (if vs[i].JObj? then vs[i].entries else [])
  {
    if vs == [] then [] else [if vs[0].JObj? then vs[0].entries else []] + RecordsOf(vs[1..])
  }

  /** The volume is present and a positive number. */
  predicate VolumeOk(r: Record) {
    HasKey(r, "volume") && NumOf(Attr(r, "volume")).Ok? && NumOf(Attr(r, "volume")).value > 0.0
  }

  /** Every record's type is one of the three roles. */
  predicate AllRoles(rs: seq<Record>) {
    forall i :: 0 <= i < |rs| ==> TypeOf(rs[i]) in Roles
  }

  /** The flag is readable from `basic_parameters`. */
  predicate HasFlag(basic: Json) {
    basic.JObj? && HasKey(basic.entries, "subcutaneous")
  }

  function Flag(basic: Json): Json
    requires HasFlag(basic)
  {
    Lookup(basic.entries, "subcutaneous").value
  }

  /** `dose` is a list whose amount is a positive int or float and whose
      schedule is "bolus" or "continuous". */
  predicate DoseOk(basic: Json) {
    && basic.JObj? && HasKey(basic.entries, "dose")
    && var dose := Lookup(basic.entries, "dose").value;
       dose.JList? && |dose.items| >= 2 && PositiveNumber(dose.items[0]) && dose.items[1] in Schedules
  }

  /** Every compartment record has a role type and a positive volume; exactly
      one is central and at most one is subcutaneous. */
  predicate RecordsOk(rs: seq<Record>) {
    && |rs| >= 1
    && AllRoles(rs)
    && (forall i :: 0 <= i < |rs| ==> VolumeOk(rs[i]))
    && CountType(rs, JStr("central")) == 1
    && CountType(rs, JStr("subcutaneous")) <= 1
  }

  /** What the checks demand of a configuration, stated on the configuration
      itself rather than on the sorted, filled list. */
  ghost predicate ValidConfig(c: Config) {
    && HasKey(c, "basic_parameters")
    && var basic := Lookup(c, "basic_parameters").value;
       var vs := CompartmentValues(c);
       var rs := RecordsOf(vs);
       && (forall i :: 0 <= i < |vs| ==> vs[i].JObj? && HasKey(vs[i].entries, "type"))
       && RecordsOk(rs)
       && HasFlag(basic)
       && (EqualsOne(Flag(basic)) <==> CountType(rs, JStr("subcutaneous")) == 1)
       && DoseOk(basic)
  }

  lemma DoseChecks(basic: Json)
    ensures CheckDoseAmount(basic).Pass? && CheckDoseSchedule(basic).Pass? <==> DoseOk(basic)
  {
  }

  lemma FlagCheck(basic: Json, cs: seq<Record>)
    ensures CheckFlag(basic, cs).Pass? <==>
      HasFlag(basic) && |cs| >= 1 && (EqualsOne(Flag(basic)) <==> TypeOf(cs[|cs| - 1]) == JStr("subcutaneous"))
  {
  }

  lemma ValidateOk(basic: Json, cs: seq<Record>)
    ensures Validate(basic, cs).Ok? <==>
      && CheckFlag(basic, cs).Pass? && CheckDoseAmount(basic).Pass? && CheckDoseSchedule(basic).Pass?
      && CheckCentralCount(cs).Pass? && CheckSubcutaneousCount(cs).Pass? && CheckEach(cs).Pass?
    ensures Validate(basic, cs).Ok? ==> Validate(basic, cs).value == Parsed(basic, cs)
  {
  }

  lemma TypeOfString(r: Record, k: string)
    requires k != ""
    ensures TypeOf(r) == JStr(k) <==> TypeKey(r) == k
  {
  }

  lemma {:induction false} CountTypeOfType(s: seq<Record>, k: string)
    requires k != ""
    ensures CountType(s, JStr(k)) == |OfType(s, k)|
  {
    if s != [] {
      CountTypeOfType(s[1..], k);
      TypeOfString(s[0], k);
    }
  }

  predicate AllTyped(s: seq<Record>) {
    forall i :: 0 <= i < |s| ==> HasKey(s[i], "type")
  }

  lemma {:induction false} FillAllOfType(s: seq<Record>, k: string)
    requires AllTyped(s)
    ensures OfType(FillAll(s), k) == FillAll(OfType(s, k))
  {
    if s != [] {
      FillKeepsType(s[0]);
      assert FillAll(s)[1..] == FillAll(s[1..]);
      FillAllOfType(s[1..], k);
      OfTypeAppend(if TypeKey(s[0]) == k then [s[0]] else [], OfType(s[1..], k), k);
    }
  }

  lemma {:induction false} CountTypeFillAll(s: seq<Record>, role: Json)
    requires AllTyped(s)
    ensures CountType(FillAll(s), role) == CountType(s, role)
  {
    if s != [] {
      FillKeepsType(s[0]);
      assert FillAll(s)[1..] == FillAll(s[1..]);
      CountTypeFillAll(s[1..], role);
    }
  }

  lemma {:induction false} CountTypeWitness(s: seq<Record>, role: Json) returns (j: nat)
    requires CountType(s, role) >= 1
    ensures j < |s| && TypeOf(s[j]) == role
  {
    if TypeOf(s[0]) == role {
      j := 0;
    } else {
      var k := CountTypeWitness(s[1..], role);
      j := k + 1;
    }
  }

  lemma {:induction false} CountTypeOfWitness(s: seq<Record>, role: Json, j: nat)
    requires j < |s| && TypeOf(s[j]) == role
    ensures CountType(s, role) >= 1
  {
    if j > 0 { CountTypeOfWitness(s[1..], role, j - 1); }
  }

  const RoleNames: set<string> := {"central", "subcutaneous", "peripheral"}

  lemma RoleKey(r: Record)
    requires TypeOf(r) in Roles
    ensures TypeOf(r) == JStr(TypeKey(r)) && TypeKey(r) in RoleNames
  {
  }

  /** The position of a role name in string order. */
  function RoleRank(k: string): (r: int)
    ensures 0 <= r <= 2
    ensures k in RoleNames ==> (r == 0 <==> k == "central") && (r == 2 <==> k == "subcutaneous")
  {
    if k == "central" then 0 else if k == "peripheral" then 1 else 2
  }

  lemma RoleRankMonotone(a: string, b: string)
    requires a in RoleNames && b in RoleNames && StrLe(a, b)
    ensures RoleRank(a) <= RoleRank(b)
  {
    RoleOrder();
    StrLtAsymmetric("central", "peripheral");
    StrLtAsymmetric("central", "subcutaneous");
    StrLtAsymmetric("peripheral", "subcutaneous");
  }

  ghost predicate RankSorted(s: seq<Record>) {
    forall i, j :: 0 <= i < j < |s| ==> RoleRank(TypeKey(s[i])) <= RoleRank(TypeKey(s[j]))
  }

  lemma SortedRanks(s: seq<Record>)
    requires SortedByType(s) && AllRoles(s)
    ensures RankSorted(s)
  {
    forall i, j | 0 <= i < j < |s| ensures RoleRank(TypeKey(s[i])) <= RoleRank(TypeKey(s[j])) {
      RoleKey(s[i]);
      RoleKey(s[j]);
      RoleRankMonotone(TypeKey(s[i]), TypeKey(s[j]));
    }
  }

  /** The rank of a record with a role type tells its role. */
  lemma RankedRole(r: Record)
    requires TypeOf(r) in Roles
    ensures RoleRank(TypeKey(r)) == 0 <==> TypeOf(r) == JStr("central")
    ensures RoleRank(TypeKey(r)) == 2 <==> TypeOf(r) == JStr("subcutaneous")
  {
  }

  /** In a list ranked by role, a central record (if any) comes first. */
  lemma SortedCentralFirst(s: seq<Record>)
    requires RankSorted(s) && AllRoles(s) && |s| >= 1
    requires CountType(s, JStr("central")) >= 1
    ensures TypeOf(s[0]) == JStr("central")
  {
    var j := CountTypeWitness(s, JStr("central"));
    CentralBefore(s, j);
  }

  /** ... and a subcutaneous record (if any) comes last. */
  lemma SortedSubcutaneousLast(s: seq<Record>)
    requires RankSorted(s) && AllRoles(s) && |s| >= 1
    requires CountType(s, JStr("subcutaneous")) >= 1
    ensures TypeOf(s[|s| - 1]) == JStr("subcutaneous")
  {
    var j := CountTypeWitness(s, JStr("subcutaneous"));
    SubcutaneousAfter(s, j);
  }

  lemma CentralBefore(s: seq<Record>, j: nat)
    requires RankSorted(s) && AllRoles(s) && j < |s| && TypeOf(s[j]) == JStr("central")
    ensures TypeOf(s[0]) == JStr("central")
  {
    RankedBefore(s, 0, j);
  }

  lemma SubcutaneousAfter(s: seq<Record>, j: nat)
    requires RankSorted(s) && AllRoles(s) && j < |s| && TypeOf(s[j]) == JStr("subcutaneous")
    ensures TypeOf(s[|s| - 1]) == JStr("subcutaneous")
  {
    RankedBefore(s, j, |s| - 1);
  }

  /** Of two records of a list ranked by role, one central or the other
      subcutaneous, the earlier is central or the later subcutaneous. */
  lemma RankedBefore(s: seq<Record>, i: nat, j: nat)
    requires RankSorted(s) && AllRoles(s) && i <= j < |s|
    ensures TypeOf(s[j]) == JStr("central") ==> TypeOf(s[i]) == JStr("central")
    ensures TypeOf(s[i]) == JStr("subcutaneous") ==> TypeOf(s[j]) == JStr("subcutaneous")
  {
    var a, b := s[i], s[j];
    assert TypeOf(a) in Roles && TypeOf(b) in Roles;
    RankedRole(a);
    RankedRole(b);
    if i < j { assert RoleRank(TypeKey(a)) <= RoleRank(TypeKey(b)); }
  }

  lemma MembersOfPermutation(a: seq<Record>, b: seq<Record>)
    requires multiset(a) == multiset(b)
    ensures forall i :: 0 <= i < |a| ==> a[i] in b
  {
    forall i | 0 <= i < |a| ensures a[i] in b {
      assert a[i] in multiset(a);
    }
  }

  /** One filled record passes its checks iff its type is a role and its volume is positive. */
  lemma CheckOneFill(r: Record)
    requires HasKey(r, "type")
    ensures CheckOne(Fill(r)).Pass? <==> TypeOf(r) in Roles && VolumeOk(r)
  {
    FillKeepsType(r);
    FillLookup(r, "volume");
    assert Attr(Fill(r), "volume") == Attr(r, "volume");
  }

  lemma SortKeepsTyped(rs: seq<Record>)
    requires AllTyped(rs)
    ensures AllTyped(SortByType(rs))
    ensures forall i :: 0 <= i < |SortByType(rs)| ==> SortByType(rs)[i] in rs
    ensures forall j :: 0 <= j < |rs| ==> rs[j] in SortByType(rs)
  {
    var sorted := SortByType(rs);
    SortByTypeSortedPermutation(rs);
    MembersOfPermutation(sorted, rs);
    MembersOfPermutation(rs, sorted);
  }

  lemma FillAllKeepsTypes(s: seq<Record>)
    requires AllTyped(s)
    ensures forall i :: 0 <= i < |s| ==> TypeOf(FillAll(s)[i]) == TypeOf(s[i]) && TypeKey(FillAll(s)[i]) == TypeKey(s[i])
  {
    forall i | 0 <= i < |s| ensures TypeOf(FillAll(s)[i]) == TypeOf(s[i]) && TypeKey(FillAll(s)[i]) == TypeKey(s[i]) {
      FillKeepsType(s[i]);
    }
  }

  /** The list the checks see is sorted by type, and has one record per compartment. */
  lemma FilledSorted(rs: seq<Record>)
    requires AllTyped(rs)
    ensures |FillAll(SortByType(rs))| == |rs|
    ensures SortedByType(FillAll(SortByType(rs)))
  {
    SortByTypeSortedPermutation(rs);
    SortKeepsTyped(rs);
    FillAllKeepsTypes(SortByType(rs));
  }

  /** Sorting neither adds nor drops a role-typed record. */
  lemma SortRoles(rs: seq<Record>)
    requires AllTyped(rs)
    ensures AllRoles(SortByType(rs)) <==> AllRoles(rs)
  {
    SortKeepsTyped(rs);
    RolesOfMembers(SortByType(rs), rs);
    RolesOfMembers(rs, SortByType(rs));
  }

  lemma RolesOfMembers(a: seq<Record>, b: seq<Record>)
    requires forall i :: 0 <= i < |a| ==> a[i] in b
    ensures AllRoles(b) ==> AllRoles(a)
  {
    if AllRoles(b) {
      forall i | 0 <= i < |a| ensures TypeOf(a[i]) in Roles {
        var j :| 0 <= j < |b| && b[j] == a[i];
      }
    }
  }

  lemma FilledRoles(rs: seq<Record>)
    requires AllTyped(rs)
    ensures AllRoles(FillAll(SortByType(rs))) <==> AllRoles(rs)
  {
    var sorted := SortByType(rs);
    var cs := FillAll(sorted);
    SortKeepsTyped(rs);
    SortRoles(rs);
    FillAllKeepsTypes(sorted);
    assert AllRoles(cs) <==> AllRoles(sorted);
  }

  /** A record `CheckOne` lets through once filled: a role type and a
      positive volume. */
  predicate Admissible(r: Record) {
    TypeOf(r) in Roles && VolumeOk(r)
  }

  predicate AllAdmissible(rs: seq<Record>) {
    forall i :: 0 <= i < |rs| ==> Admissible(rs[i])
  }

  lemma AdmissibleParts(rs: seq<Record>)
    ensures AllAdmissible(rs) <==> AllRoles(rs) && forall i :: 0 <= i < |rs| ==> VolumeOk(rs[i])
  {
  }

  /** Every record passes the type and volume tests before sorting iff every
      one does after. */
  lemma SortedAdmissible(rs: seq<Record>)
    requires AllTyped(rs)
    ensures AllAdmissible(SortByType(rs)) <==> AllAdmissible(rs)
  {
    var s := SortByType(rs);
    SortKeepsTyped(rs);
    if AllAdmissible(s) {
      forall j | 0 <= j < |rs| ensures Admissible(rs[j]) {
        assert rs[j] in s;
        var i :| 0 <= i < |s| && s[i] == rs[j];
      }
    }
    if AllAdmissible(rs) {
      forall i | 0 <= i < |s| ensures Admissible(s[i]) {
        assert s[i] in rs;
        var j :| 0 <= j < |rs| && rs[j] == s[i];
      }
    }
  }

  lemma FilledChecks(rs: seq<Record>)
    requires AllTyped(rs)
    ensures CheckEach(FillAll(SortByType(rs))).Pass? <==> AllAdmissible(rs)
  {
    var sorted := SortByType(rs);
    var cs := FillAll(sorted);
    SortKeepsTyped(rs);
    SortedAdmissible(rs);
    forall i | 0 <= i < |cs| ensures CheckOne(cs[i]).Pass? <==> Admissible(sorted[i]) {
      assert cs[i] == Fill(sorted[i]);
      CheckOneFill(sorted[i]);
    }
    assert CheckEach(cs).Pass? <==> AllAdmissible(sorted);
  }

  /** For each type, the records the checks see are the configuration's
      records of that type, filled, in their original order. */
  lemma FilledOfType(rs: seq<Record>, k: string)
    requires AllTyped(rs)
    ensures OfType(FillAll(SortByType(rs)), k) == FillAll(OfType(rs, k))
  {
    SortKeepsTyped(rs);
    FillAllOfType(SortByType(rs), k);
    SortByTypeStable(rs, k);
  }

  lemma FilledCount(rs: seq<Record>, k: string)
    requires AllTyped(rs) && k != ""
    ensures CountType(FillAll(SortByType(rs)), JStr(k)) == CountType(rs, JStr(k))
  {
    var sorted := SortByType(rs);
    SortKeepsTyped(rs);
    CountTypeFillAll(sorted, JStr(k));
    CountTypeOfType(sorted, k);
    CountTypeOfType(rs, k);
    SortByTypeStable(rs, k);
  }

  /** The facts about the checked list that both directions below rely on. */
  lemma CheckedListFacts(rs: seq<Record>)
    requires AllTyped(rs)
    ensures var cs := FillAll(SortByType(rs));
      && |cs| == |rs|
      && (AllRoles(cs) <==> AllRoles(rs))
      && (CheckEach(cs).Pass? <==> AllAdmissible(rs))
      && CountType(cs, JStr("central")) == CountType(rs, JStr("central"))
      && CountType(cs, JStr("subcutaneous")) == CountType(rs, JStr("subcutaneous"))
      && (AllRoles(rs) && |rs| >= 1 ==>
            (TypeOf(cs[|cs| - 1]) == JStr("subcutaneous") <==> CountType(rs, JStr("subcutaneous")) >= 1))
      && (AllRoles(rs) && CountType(rs, JStr("central")) >= 1 ==> TypeOf(cs[0]) == JStr("central"))
  {
    var cs := FillAll(SortByType(rs));
    FilledSorted(rs);
    FilledRoles(rs);
    FilledChecks(rs);
    FilledCount(rs, "central");
    FilledCount(rs, "subcutaneous");
    if AllRoles(rs) && |rs| >= 1 {
      SortedRanks(cs);
      if CountType(rs, JStr("subcutaneous")) >= 1 {
        SortedSubcutaneousLast(cs);
      }
      if TypeOf(cs[|cs| - 1]) == JStr("subcutaneous") {
        CountTypeOfWitness(cs, JStr("subcutaneous"), |cs| - 1);
      }
      if CountType(rs, JStr("central")) >= 1 {
        SortedCentralFirst(cs);
      }
    }
  }

  lemma RolesAreStrings(rs: seq<Record>)
    requires AllRoles(rs)
    ensures StringTyped(rs)
  {
  }

  /** `construct` returns normally exactly on the configurations the checks
      describe: a `basic_parameters` dict with a flag that equals 1 iff a
      subcutaneous compartment exists, a dose list whose amount is a positive
      int or float and whose schedule is bolus or continuous, and at least one
      compartment, every one a dict with a role type and a positive volume,
      exactly one central and at most one subcutaneous. */
  lemma ConstructAcceptsExactly(c: Config)
    ensures ConstructSpec(c).Ok? <==> ValidConfig(c)
  {
    if HasKey(c, "basic_parameters") && KeyedRecords(CompartmentValues(c)).Ok? {
      ConstructOnRecords(c);
    }
  }

  lemma ConstructOnRecords(c: Config)
    requires HasKey(c, "basic_parameters") && KeyedRecords(CompartmentValues(c)).Ok?
    ensures ConstructSpec(c).Ok? <==> ValidConfig(c)
  {
    var basic := Lookup(c, "basic_parameters").value;
    var rs := KeyedRecords(CompartmentValues(c)).value;
    SpecOnRecords(c);
    ValidConfigOnRecords(c);
    AcceptsOnRecords(basic, rs);
    if RecordsOk(rs) { RolesAreStrings(rs); }
  }

  lemma SpecOnRecords(c: Config)
    requires HasKey(c, "basic_parameters") && KeyedRecords(CompartmentValues(c)).Ok?
    ensures var rs := KeyedRecords(CompartmentValues(c)).value;
      && AllTyped(rs)
      && ConstructSpec(c) == if |rs| >= 2 && !StringTyped(rs) then Err(TypeError)
         else Validate(Lookup(c, "basic_parameters").value, FillAll(SortByType(rs)))
  {
  }

  lemma ValidConfigOnRecords(c: Config)
    requires HasKey(c, "basic_parameters") && KeyedRecords(CompartmentValues(c)).Ok?
    ensures var basic := Lookup(c, "basic_parameters").value;
      var rs := KeyedRecords(CompartmentValues(c)).value;
      ValidConfig(c) <==>
        RecordsOk(rs) && HasFlag(basic) && DoseOk(basic) &&
        (EqualsOne(Flag(basic)) <==> CountType(rs, JStr("subcutaneous")) == 1)
  {
    var vs := CompartmentValues(c);
    assert KeyedRecords(vs).value == RecordsOf(vs);
  }

  lemma AcceptsOnRecords(basic: Json, rs: seq<Record>)
    requires AllTyped(rs)
    ensures Validate(basic, FillAll(SortByType(rs))).Ok? <==>
      RecordsOk(rs) && HasFlag(basic) && DoseOk(basic) &&
      (EqualsOne(Flag(basic)) <==> CountType(rs, JStr("subcutaneous")) == 1)
  {
    var cs := FillAll(SortByType(rs));
    ChecksOnRecords(rs);
    DoseChecks(basic);
    FlagCheck(basic, cs);
    ValidateOk(basic, cs);
  }

  /** The list checks on the filled, sorted records, stated on the records
      as configured. */
  lemma ChecksOnRecords(rs: seq<Record>)
    requires AllTyped(rs)
    ensures var cs := FillAll(SortByType(rs));
      var sub := CountType(rs, JStr("subcutaneous"));
      && |cs| == |rs|
      && (CheckCentralCount(cs).Pass? <==> CountType(rs, JStr("central")) == 1)
      && (CheckSubcutaneousCount(cs).Pass? <==> sub <= 1)
      && (CheckEach(cs).Pass? <==> AllRoles(rs) && forall i :: 0 <= i < |rs| ==> VolumeOk(rs[i]))
      && (CheckEach(cs).Pass? && |rs| >= 1 ==> (TypeOf(cs[|cs| - 1]) == JStr("subcutaneous") <==> sub >= 1))
  {
    CheckedListFacts(rs);
    AdmissibleParts(rs);
  }

  lemma {:induction false} OfTypeNone(s: seq<Record>, k: string)
    requires forall i :: 0 <= i < |s| ==> TypeKey(s[i]) != k
    ensures OfType(s, k) == []
  {
    if s != [] { OfTypeNone(s[1..], k); }
  }

  lemma RankedTail(s: seq<Record>)
    requires RankSorted(s) && AllRoles(s) && s != []
    ensures RankSorted(s[1..]) && AllRoles(s[1..])
    ensures forall i :: 0 <= i < |s| - 1 ==> RoleRank(TypeKey(s[0])) <= RoleRank(TypeKey(s[1..][i]))
  {
    assert forall i :: 0 <= i < |s| - 1 ==> s[1..][i] == s[i + 1];
  }

  /** A list ranked by role is its central records, then its peripheral
      records, then its subcutaneous records. */
  lemma {:induction false} RankedSplit(s: seq<Record>)
    requires RankSorted(s) && AllRoles(s)
    ensures s == OfType(s, "central") + OfType(s, "peripheral") + OfType(s, "subcutaneous")
  {
    if s != [] {
      var t := s[1..];
      RankedTail(s);
      RankedSplit(t);
      RoleKey(s[0]);
      var r0 := RoleRank(TypeKey(s[0]));
      if r0 >= 1 { OfTypeNone(t, "central"); }
      if r0 == 2 { OfTypeNone(t, "peripheral"); }
      assert s == [s[0]] + t;
      ConsSplit(s[0], t);
    }
  }

  /** The layout of the checked list when every check passes. */
  lemma LayoutOnRecords(basic: Json, rs: seq<Record>)
    requires AllTyped(rs) && RecordsOk(rs) && HasFlag(basic)
    requires EqualsOne(Flag(basic)) <==> CountType(rs, JStr("subcutaneous")) == 1
    ensures |OfType(rs, "central")| == 1
    ensures |OfType(rs, "subcutaneous")| == (if EqualsOne(Flag(basic)) then 1 else 0)
    ensures FillAll(SortByType(rs)) == FillAll(OfType(rs, "central")) + FillAll(OfType(rs, "peripheral")) + FillAll(OfType(rs, "subcutaneous"))
  {
    var cs := FillAll(SortByType(rs));
    FilledSorted(rs);
    FilledRoles(rs);
    SortedRanks(cs);
    RankedSplit(cs);
    FilledOfType(rs, "central");
    FilledOfType(rs, "peripheral");
    FilledOfType(rs, "subcutaneous");
    CountTypeOfType(rs, "central");
    CountTypeOfType(rs, "subcutaneous");
  }

  lemma FilledAttributes(rs: seq<Record>)
    ensures forall i, a :: 0 <= i < |FillAll(rs)| && a in Attributes ==> HasKey(FillAll(rs)[i], a)
  {
    forall i, a | 0 <= i < |rs| && a in Attributes ensures HasKey(FillAll(rs)[i], a) {
      FillLookup(rs[i], a);
    }
  }

  /** A successful `construct` got through every step up to the checks. */
  lemma ConstructSteps(c: Config)
    requires ConstructSpec(c).Ok?
    ensures HasKey(c, "basic_parameters") && KeyedRecords(CompartmentValues(c)).Ok?
    ensures ConstructSpec(c) ==
      Validate(Lookup(c, "basic_parameters").value, FillAll(SortByType(KeyedRecords(CompartmentValues(c)).value)))
  {
  }

  /** On success `construct` returns `basic_parameters` unchanged and the
      compartment records, each filled, in the order: the one central record,
      then the peripheral records in their order in the configuration, then
      the subcutaneous record, which is present exactly when the flag equals 1.
      Every returned record has all six attributes. */
  lemma ConstructResultLayout(c: Config, p: Parsed)
    requires ConstructSpec(c) == Ok(p)
    ensures HasKey(c, "basic_parameters") && p.basic == Lookup(c, "basic_parameters").value
    ensures var rs := RecordsOf(CompartmentValues(c));
      && |OfType(rs, "central")| == 1
      && |OfType(rs, "subcutaneous")| == (if EqualsOne(Flag(p.basic)) then 1 else 0)
      && p.compartments == FillAll(OfType(rs, "central")) + FillAll(OfType(rs, "peripheral")) + FillAll(OfType(rs, "subcutaneous"))
    ensures SortedByType(p.compartments)
    ensures forall i, a :: 0 <= i < |p.compartments| && a in Attributes ==> HasKey(p.compartments[i], a)
  {
    ConstructSteps(c);
    var vs := CompartmentValues(c);
    var rs := KeyedRecords(vs).value;
    assert rs == RecordsOf(vs);
    assert AllTyped(rs);
    var basic := Lookup(c, "basic_parameters").value;
    ValidateOk(basic, FillAll(SortByType(rs)));
    assert p == Parsed(basic, FillAll(SortByType(rs)));
    AcceptsOnRecords(basic, rs);
    LayoutOnRecords(p.basic, rs);
    FilledSorted(rs);
    FilledAttributes(SortByType(rs));
  }
}
