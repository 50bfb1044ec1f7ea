/**
 * `Parser.construct` of the root-level system_parser.py, the earlier version
 * of the PKPy parser: the same removal of `basic_parameters` and stable sort
 * by type, but no attribute filling and only two checks, the subcutaneous
 * flag against the last sorted record and the type of every record.
 */
module LegacyParser {
  import opened PyValues
  import opened TypeOrder
  import opened SystemParser

  /** One record's check: its type must be a role. The error message reads
      `compartment['name']`, which raises KeyError when the name is absent. */
  function LegacyCheckOne(r: Record): (o: Outcome)
    ensures o.Pass? <==> TypeOf(r) in Roles
    ensures o.Fail? ==> o.error == if HasKey(r, "name") then ValueError(BadType(Attr(r, "name"))) else KeyError
  {
    if TypeOf(r) in Roles then Pass
    else match Lookup(r, "name")
      case Ok(n) => Fail(ValueError(BadType(n)))
      case Err(e) => Fail(e)
  }

  function LegacyCheckEach(cs: seq<Record>): (o: Outcome)
    ensures o.Pass? <==> AllRoles(cs)
  {
    if cs == [] then Pass
    else if LegacyCheckOne(cs[0]).Fail? then LegacyCheckOne(cs[0])
    else
      assert forall i :: 1 <= i < |cs| ==> cs[1..][i - 1] == cs[i];
      LegacyCheckEach(cs[1..])
  }

  /** What the older `construct` returns or raises for the configuration `c`. */
  function LegacyConstructSpec(c: Config): (r: Result<Parsed>)
    ensures !HasKey(c, "basic_parameters") ==> r == Err(KeyError)
    ensures r.Ok? ==> r.value.basic == Lookup(c, "basic_parameters").value
  {
    var basic :- Lookup(c, "basic_parameters");
    var sorted :- SortCompartments(CompartmentValues(c));
    :- CheckFlag(basic, sorted);
    :- LegacyCheckEach(sorted);
    Ok(Parsed(basic, sorted))
  }

  /** The older `construct`, with its validation loop (lines 28-30). The
      parser object only stores the decoded file, so the configuration is
      passed in directly. */
  method LegacyConstruct(c: Config) returns (r: Result<Parsed>)
    ensures r == LegacyConstructSpec(c)
  {
    var basic :- Lookup(c, "basic_parameters");
    var copy := RemoveKey(c, "basic_parameters");
    var sorted :- SortCompartments(Values(copy));
    :- CheckFlag(basic, sorted);
    var i := 0;
    while i < |sorted|
      invariant 0 <= i <= |sorted|
      invariant LegacyCheckEach(sorted) == LegacyCheckEach(sorted[i..])
    {
      assert sorted[i..][1..] == sorted[i + 1..];
      var one := LegacyCheckOne(sorted[i]);
      if one.Fail? {
        return Err(one.error);
      }
      i := i + 1;
    }
    return Ok(Parsed(basic, sorted));
  }

  /** The sorted records are the central ones, then the peripheral ones, then
      the subcutaneous ones, each group in configuration order. */
  lemma SortSplit(rs: seq<Record>)
    requires AllTyped(rs) && AllRoles(rs)
    ensures SortByType(rs) == OfType(rs, "central") + OfType(rs, "peripheral") + OfType(rs, "subcutaneous")
  {
    var s := SortByType(rs);
    SortByTypeSortedPermutation(rs);
    SortRoles(rs);
    SortedRanks(s);
    RankedSplit(s);
    SortByTypeStable(rs, "central");
    SortByTypeStable(rs, "peripheral");
    SortByTypeStable(rs, "subcutaneous");
  }

  /** The last sorted record is subcutaneous iff some record is. */
  lemma SortLast(rs: seq<Record>)
    requires AllTyped(rs) && AllRoles(rs) && |rs| >= 1
    ensures |SortByType(rs)| == |rs|
    ensures TypeOf(SortByType(rs)[|rs| - 1]) == JStr("subcutaneous") <==> CountType(rs, JStr("subcutaneous")) >= 1
  {
    var s := SortByType(rs);
    SortByTypeSortedPermutation(rs);
    SortRoles(rs);
    SortedRanks(s);
    SortByTypeStable(rs, "subcutaneous");
    CountTypeOfType(s, "subcutaneous");
    CountTypeOfType(rs, "subcutaneous");
    if CountType(s, JStr("subcutaneous")) >= 1 {
      SortedSubcutaneousLast(s);
    }
    if TypeOf(s[|s| - 1]) == JStr("subcutaneous") {
      CountTypeOfWitness(s, JStr("subcutaneous"), |s| - 1);
    }
  }

  lemma LegacyConstructSteps(c: Config)
    requires LegacyConstructSpec(c).Ok?
    ensures HasKey(c, "basic_parameters") && KeyedRecords(CompartmentValues(c)).Ok?
    ensures var basic := Lookup(c, "basic_parameters").value;
      var s := SortByType(KeyedRecords(CompartmentValues(c)).value);
      && CheckFlag(basic, s).Pass? && LegacyCheckEach(s).Pass?
      && LegacyConstructSpec(c) == Ok(Parsed(basic, s))
  {
  }

  /** The older `construct` returns normally exactly when `basic_parameters`
      exists, every compartment is a dict with a role type, there is at least
      one compartment, and the flag equals 1 iff some compartment is
      subcutaneous. Nothing else is checked: not the dose, not the volumes,
      not how many compartments are central or subcutaneous. */
  lemma LegacyAcceptsExactly(c: Config)
    ensures LegacyConstructSpec(c).Ok? <==>
      && HasKey(c, "basic_parameters")
      && var basic := Lookup(c, "basic_parameters").value;
         var vs := CompartmentValues(c);
         var rs := RecordsOf(vs);
         && (forall i :: 0 <= i < |vs| ==> vs[i].JObj? && HasKey(vs[i].entries, "type"))
         && |rs| >= 1 && AllRoles(rs) && HasFlag(basic)
         && (EqualsOne(Flag(basic)) <==> CountType(rs, JStr("subcutaneous")) >= 1)
  {
    if HasKey(c, "basic_parameters") {
      var basic := Lookup(c, "basic_parameters").value;
      var vs := CompartmentValues(c);
      var kr := KeyedRecords(vs);
      if kr.Ok? {
        var rs := kr.value;
        assert rs == RecordsOf(vs);
        LegacyOnRecords(basic, rs);
        if AllRoles(rs) { RolesAreStrings(rs); }
        assert SortCompartments(vs).Ok? ==> SortCompartments(vs) == Ok(SortByType(rs));
        assert LegacyConstructSpec(c).Ok? ==> SortCompartments(vs).Ok?;
      }
    }
  }

  lemma LegacyOnRecords(basic: Json, rs: seq<Record>)
    requires AllTyped(rs)
    ensures CheckFlag(basic, SortByType(rs)).Pass? && LegacyCheckEach(SortByType(rs)).Pass? <==>
      |rs| >= 1 && AllRoles(rs) && HasFlag(basic) &&
      (EqualsOne(Flag(basic)) <==> CountType(rs, JStr("subcutaneous")) >= 1)
  {
    var s := SortByType(rs);
    SortRoles(rs);
    SortByTypeSortedPermutation(rs);
    FlagCheck(basic, s);
    if |rs| >= 1 {
      if AllRoles(rs) {
        SortLast(rs);
        assert LegacyCheckEach(s).Pass?;
      } else {
        assert !LegacyCheckEach(s).Pass?;
      }
    } else {
      assert s == [];
    }
  }

  /** On success the older `construct` returns `basic_parameters` unchanged
      and the records, unfilled, stably sorted: central ones, then peripheral
      ones, then subcutaneous ones, each group in configuration order. */
  lemma LegacyResultLayout(c: Config, p: Parsed)
    requires LegacyConstructSpec(c) == Ok(p)
    ensures HasKey(c, "basic_parameters") && p.basic == Lookup(c, "basic_parameters").value
    ensures var rs := RecordsOf(CompartmentValues(c));
      p.compartments == OfType(rs, "central") + OfType(rs, "peripheral") + OfType(rs, "subcutaneous")
    ensures SortedByType(p.compartments)
  {
    LegacyConstructSteps(c);
    var vs := CompartmentValues(c);
    var rs := KeyedRecords(vs).value;
    assert rs == RecordsOf(vs);
    assert AllTyped(rs);
    assert AllRoles(SortByType(rs));
    SortRoles(rs);
    SortSplit(rs);
    SortByTypeSortedPermutation(rs);
  }

  /** The doc comment's "index 0 is the central compartment" is not enforced:
      a configuration with one peripheral compartment and no central one is
      accepted, and its index 0 is peripheral. */
  lemma LegacyCentralNotEnforced()
    ensures var c := [("basic_parameters", JObj([("subcutaneous", JInt(0))])),
                      ("adipose", JObj([("type", JStr("peripheral"))]))];
      && LegacyConstructSpec(c).Ok?
      && TypeOf(LegacyConstructSpec(c).value.compartments[0]) == JStr("peripheral")
  {
    var c := [("basic_parameters", JObj([("subcutaneous", JInt(0))])),
              ("adipose", JObj([("type", JStr("peripheral"))]))];
    var rec: Record := [("type", JStr("peripheral"))];
    assert rec[0].0 == "type";
    assert HasKey(rec, "type");
    assert CompartmentValues(c) == [JObj(rec)];
    var kr := KeyedRecords([JObj(rec)]);
    assert kr.Ok?;
    assert kr.value == [rec];
    assert SortByType([rec]) == [rec];
    assert TypeOf(rec) == JStr("peripheral");
    assert LegacyCheckEach([rec]) == Pass;
  }
}
