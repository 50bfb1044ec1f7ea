# PKPy pharmacokinetic model, in Dafny

PKPy simulates how a drug spreads between body compartments. A JSON
system file names the compartments. Each has a type (`central`, `peripheral`
or `subcutaneous`), a volume, an initial amount, and inflow and outflow
rates. It also holds `basic_parameters`: the subcutaneous flag and a dose
(an amount and a schedule, `bolus` or `continuous`). From these the model
builds a linear ODE system and hands it to a numerical solver.

This project models the parts of that pipeline that decide what the solver
is asked to compute:

- `json_values.dfy` (`PyValues`): decoded JSON values with the Python
  semantics the code relies on. That covers dict lookup that raises
  `KeyError`, indexing, truthiness, `== 1`, and arithmetic that raises
  `TypeError` or `ZeroDivisionError`. Python exceptions are the `Err` case
  of a `Result`.
- `type_order.dfy` (`TypeOrder`): Python's string order and a stable sort
  of compartment records by their `type`. It proves the sort is sorted, is
  a permutation and is stable.
- `system_parser.dfy` (`SystemParser`): `Parser.construct` of
  `PKPy/system_parser.py`. It removes `basic_parameters`, sorts the
  records, fills absent attributes with `None` and runs the ordered
  `ValueError` checks. The `Parser` class keeps the configuration as a
  mutable field, because the filling loop updates the parser's own records
  (the copy at line 17 is shallow). Loop-based methods are proved equal to
  specification functions. Lemmas characterise exactly which
  configurations are accepted, and the layout of the result.
- `legacy_parser.dfy` (`LegacyParser`): the older `Parser.construct` of the
  root-level `system_parser.py`. It does the same sort but only checks the
  flag and the types.
- `model.dfy` (`PkModel`): `PKPy/model.py`. It models `Compartment`, and
  `Model` as a class with immutable fields built from the parser's output.
  It also models the dose policy, the ODE right-hand side (a function plus
  the loop-based method proved equal to it), the initial state vector and
  the keying of the solver's rows by compartment name. Lemmas give the
  closed form of every derivative, mass balance, and the independence from
  peripheral `rate_out`. They also connect a successfully parsed
  configuration to the roles the model assigns.

All quantities are exact reals. The solver itself is not modelled: its
output rows are a parameter of `KeyTimeseries`.

Behaviour of the code worth knowing:

- The central and subcutaneous cardinalities are checked only in the
  parser. `Model.__init__` partitions purely by position, and it tests the
  flag for truth while the parser compares it with 1 (`TruthyFlagNotOne`).
- The code raises only Python's built-in exceptions: `ValueError`,
  `KeyError`, `IndexError`, `TypeError`, `ZeroDivisionError` and
  `NameError`.
- A missing `rate_in` on a peripheral compartment is not rejected when the
  file is loaded. It becomes `None`, and `ode_system` raises `TypeError`.
- `ode_system` does not check the length of the state. `zip` stops at the
  shorter of the amounts and the peripheral compartments.
- The initial state is not built in the order the right-hand side reads
  (see Findings).

## Model

| member | source | states |
|---|---|---|
| PyValues.KeyIndex | PKPy/system_parser.py:16 | the position it gives holds key `k` and no earlier entry does |
| PyValues.Lookup | PKPy/system_parser.py:16 | `d[k]` succeeds exactly when `k` is a key, and then yields the value of the first entry with key `k`; otherwise it raises KeyError |
| PyValues.GetKey | PKPy/system_parser.py:33 | subscripting with a string succeeds exactly on a dict that has the key; on a dict it is the dict lookup, with its value or KeyError, and any other value raises TypeError |
| PyValues.Subscript | PKPy/system_parser.py:37 | `v[i]` succeeds exactly on a list or string longer than `i`, and on a list yields item `i`; a short list or string raises IndexError, a dict KeyError, anything else TypeError |
| PyValues.Div | PKPy/model.py:92 | division succeeds exactly when the divisor is a number other than zero, and then gives the quotient; a zero number raises ZeroDivisionError, a non-number TypeError |
| PyValues.Mul | PKPy/model.py:92 | multiplication succeeds exactly when the factor is a number, and then gives the product |
| PyValues.FlagTestsAgree | PKPy/model.py:48 | the truth test of the model and the `== 1` test of the parser agree exactly on booleans, ints 0 and 1, and floats 0.0 and 1.0 |
| TypeOrder.StrLeTransitive | PKPy/system_parser.py:20 | string `<=`, the sort key's order, is transitive |
| TypeOrder.StrLeTotal | PKPy/system_parser.py:20 | any two strings are comparable |
| TypeOrder.RoleOrder | PKPy/system_parser.py:22-23 | "central" < "peripheral" < "subcutaneous" in Python's string order |
| TypeOrder.SortByTypeSortedPermutation | PKPy/system_parser.py:20 | the sorted records are ordered by type and are a permutation of the input |
| SystemParser.SortCompartments | PKPy/system_parser.py:20 | `sorted` succeeds exactly when every value is a dict with a `type` and, for two or more, the types are strings; the result is ordered by type and is a permutation of the records; a type that cannot be compared raises TypeError |
| TypeOrder.SortByTypeStable | PKPy/system_parser.py:20 | for every type, the records of that type keep their input order |
| SystemParser.RemoveKey | PKPy/system_parser.py:17-18 | the copy no longer has the removed key; when exactly one entry has that key, it goes and every other entry is kept in order; a config without that key is unchanged |
| SystemParser.RemoveKeyLookup | PKPy/system_parser.py:17-18 | removing one key leaves the lookup of every other key unchanged |
| SystemParser.Values | PKPy/system_parser.py:19 | one value per entry, in entry order |
| SystemParser.KeyedRecords | PKPy/system_parser.py:20 | evaluating the sort key succeeds exactly when every value is a dict with a `type`, and then yields those dicts in order |
| SystemParser.Fill | PKPy/system_parser.py:26-30 | the filled record starts with the record's own entries, unchanged and in order, and every added entry is None |
| SystemParser.FillAll | PKPy/system_parser.py:25-30 | one filled record per record, in order |
| SystemParser.FillConfig | PKPy/system_parser.py:17-30 | the parser's configuration after the loop: same keys in the same order, every compartment dict filled, basic_parameters and non-dict values untouched |
| SystemParser.FillLookup | PKPy/system_parser.py:25-30 | after filling, present attributes keep their values, absent ones of the six are None, and no other key appears |
| SystemParser.FillRecords | PKPy/system_parser.py:25-30 | the filling loop fills every sorted record, in order |
| SystemParser.Parser.Construct | PKPy/system_parser.py:14-51 | returns or raises exactly what `ConstructSpec` describes; the parser's records are the filled ones once the loop is reached |
| SystemParser.CheckFlag | PKPy/system_parser.py:33-36 | a missing flag raises KeyError on a dict and TypeError otherwise; no record raises IndexError; a flag that disagrees with the last record's type raises ValueError |
| SystemParser.CheckDoseAmount | PKPy/system_parser.py:37-38 | passes exactly when `dose[0]` can be read and is a positive int or float; a readable amount that is not one raises ValueError |
| SystemParser.CheckDoseSchedule | PKPy/system_parser.py:39-40 | passes exactly when `dose[1]` can be read and is bolus or continuous; a readable other value raises ValueError |
| SystemParser.CheckCentralCount | PKPy/system_parser.py:41-42 | passes exactly when one record has type central, and otherwise raises ValueError |
| SystemParser.CheckSubcutaneousCount | PKPy/system_parser.py:43-44 | passes exactly when at most one record has type subcutaneous, and otherwise raises ValueError |
| SystemParser.CheckOne | PKPy/system_parser.py:46-49 | passes exactly when the type is a role and the volume a positive number; a bad type raises ValueError, a None or non-positive volume ValueError, a volume that cannot be compared TypeError |
| SystemParser.CheckEach | PKPy/system_parser.py:45-49 | the loop passes exactly when every record passes its type and volume checks |
| SystemParser.ValidateCompartments | PKPy/system_parser.py:45-49 | the loop raises the first failing record's error, or passes |
| SystemParser.CheckOneFill | PKPy/system_parser.py:45-49 | a filled record passes exactly when its type is a role and its volume is a positive number |
| SystemParser.ValidateParsed | PKPy/system_parser.py:33-51 | runs the six checks in source order and returns `[basic_pars, compartments]` when all pass |
| SystemParser.FlagCheck | PKPy/system_parser.py:33-36 | the flag check passes exactly when the flag exists, there is a record, and the flag equals 1 iff the last record is subcutaneous |
| SystemParser.DoseChecks | PKPy/system_parser.py:37-40 | the dose checks pass exactly when the amount is a positive int or float and the schedule is bolus or continuous |
| SystemParser.ChecksOnRecords | PKPy/system_parser.py:41-49 | counting on the sorted, filled list gives the same answer as counting on the configured records |
| SystemParser.SortedCentralFirst | PKPy/system_parser.py:22 | in a list sorted by role, a central record comes first |
| SystemParser.SortedSubcutaneousLast | PKPy/system_parser.py:23 | in a list sorted by role, a subcutaneous record comes last |
| SystemParser.RankedSplit | PKPy/system_parser.py:20-23 | a list sorted by role is its central, then peripheral, then subcutaneous records |
| SystemParser.ConstructSpec | PKPy/system_parser.py:16 | a configuration without basic_parameters raises KeyError before anything else |
| SystemParser.ConstructAcceptsExactly | PKPy/system_parser.py:14-51 | `construct` returns exactly for configurations with a flag equal to 1 iff a subcutaneous compartment exists, a valid dose, and records that are dicts with a role type and positive volume, exactly one central and at most one subcutaneous |
| SystemParser.ConstructResultLayout | PKPy/system_parser.py:16-51 | on success, basic_parameters is returned unchanged; the records are sorted and filled and hold all six attributes; the layout is the one central record, then the peripherals in configuration order, then the subcutaneous record, present iff the flag is 1 |
| LegacyParser.LegacyCheckOne | system_parser.py:29-30 | passes exactly when the type is a role; otherwise raises ValueError naming the compartment, or KeyError when it has no name |
| LegacyParser.LegacyConstructSpec | system_parser.py:18-32 | a configuration without basic_parameters raises KeyError; on success basic_parameters is returned as read |
| LegacyParser.LegacyCheckEach | system_parser.py:28-30 | the type loop passes exactly when every record's type is a role |
| LegacyParser.LegacyConstruct | system_parser.py:16-32 | the older `construct` returns or raises what `LegacyConstructSpec` describes |
| LegacyParser.SortSplit | system_parser.py:22 | the sorted records are the central, then peripheral, then subcutaneous records, each group in configuration order |
| LegacyParser.SortLast | system_parser.py:24-25 | the last sorted record is subcutaneous iff some record is |
| LegacyParser.LegacyAcceptsExactly | system_parser.py:16-32 | the older `construct` returns exactly when the records are dicts with role types, there is at least one, and the flag equals 1 iff a record is subcutaneous; nothing else is checked |
| LegacyParser.LegacyResultLayout | system_parser.py:18-32 | on success basic_parameters is returned unchanged and the unfilled records are stably sorted by role |
| LegacyParser.LegacyCentralNotEnforced | system_parser.py:7 | a configuration with no central compartment is accepted, with a peripheral record at index 0 |
| PkModel.NewCompartment | PKPy/model.py:21-26 | a compartment is built exactly when the five required keys exist; it copies them, its `rate_in` is None when absent, and any other case raises KeyError |
| PkModel.Compartments | PKPy/model.py:47 | one compartment per record, in order, or KeyError when any record lacks a required key |
| PkModel.Partition | PKPy/model.py:48-53 | central is the first compartment; with a truthy flag the subcutaneous compartment is the last one and the others are the middle slice, empty for a single compartment; otherwise the others are the rest; an empty list raises IndexError or ValueError; the state order is the list except for a truthy flag on one compartment |
| PkModel.Init | PKPy/model.py:42-53 | `__init__` succeeds exactly when the flag exists, the dose has two readable entries, there is a compartment and each has the required keys; then the flag and dose are read from basic_parameters, the list is the records' compartments and the roles are their partition |
| PkModel.PartitionGroups | PKPy/model.py:48-53 | on the parser's grouped list, the others are exactly the peripheral group and the state order is the list itself |
| PkModel.Model.Create | PKPy/model.py:42-53 | the object's attributes are those `__init__` computes from the parser's output, or the error it raises |
| PkModel.Model.Load | PKPy/model.py:38-53 | parsing then constructing gives the model, or the first error raised |
| PkModel.Dose | PKPy/model.py:65-70 | a continuous dose is the constant; a bolus dose is the constant at t == 0 and int 0 at any other time; an unknown schedule raises ValueError |
| PkModel.DoseSchedule | PKPy/model.py:65-68 | a continuous dose is the constant at every time; a bolus dose is positive exactly at t == 0 |
| PkModel.PeripheralStep | PKPy/model.py:92 | one peripheral derivative is `rate_in * (c/Vc - a/V)` when both volumes are nonzero numbers and `rate_in` is a number, and raises otherwise |
| PkModel.Peripherals | PKPy/model.py:91 | `zip` gives as many peripheral derivatives as the shorter of the amounts and the peripheral compartments |
| PkModel.PeripheralsClosedForm | PKPy/model.py:90-93 | one derivative per pair of amount and peripheral compartment, each the flow of line 92, raising iff some pair's flow cannot be evaluated |
| PkModel.PeripheralDerivatives | PKPy/model.py:90-93 | the append loop computes the same list or error as the closed form |
| PkModel.OdeRhs | PKPy/model.py:83-101 | an empty state raises IndexError with a subcutaneous compartment and ValueError without; a result means the dose was defined and the central volume nonzero |
| PkModel.OdeRhsAsWritten | PKPy/model.py:87 | without a subcutaneous compartment, `ode_system` as written never returns |
| PkModel.Model.OdeSystem | PKPy/model.py:83-101 | the method computes the intended right-hand side `OdeRhs` of the model's attributes |
| PkModel.RhsShape | PKPy/model.py:83-101 | when it returns, the derivatives are central first, then the peripheral flows in order, then, if present, the subcutaneous one last, each with its closed form |
| PkModel.RhsWithSub | PKPy/model.py:95-98 | with a subcutaneous compartment: central is absorption minus elimination minus the peripheral flows, and subcutaneous is dose minus absorption |
| PkModel.RhsWithoutSub | PKPy/model.py:99-101 | without one: central is dose minus elimination minus the peripheral flows |
| PkModel.RhsLength | PKPy/model.py:83-101 | one amount per compartment gives one derivative per compartment |
| PkModel.MassBalance | PKPy/model.py:91-101 | the derivatives sum to the dose rate minus the elimination from the central compartment |
| PkModel.RhsIgnoresPeripheralRateOut | PKPy/model.py:91-100 | changing the peripheral compartments' `rate_out` never changes the result |
| PkModel.AsWrittenDeviation | PKPy/model.py:83-101 | as written, `ode_system` agrees with the intended one when there is a subcutaneous compartment, and raises NameError without one for any non-empty state |
| PkModel.NameErrorWitness | PKPy/model.py:87 | a one-compartment model whose intended derivative is [1.0] raises NameError as written |
| PkModel.Amounts | PKPy/model.py:115-122 | one entry per compartment, its initial amount, in order |
| PkModel.AppendAmounts | PKPy/model.py:117-118 | the append loop adds the initial amounts of the compartments, in order, to the given prefix |
| PkModel.Model.InitialValuesAsWritten | PKPy/model.py:115-122 | `y0` as written: central, then subcutaneous, then the others' initial amounts |
| PkModel.Model.InitialValues | PKPy/model.py:115-122 | `y0` in the state order `ode_system` reads: central, the others, then subcutaneous |
| PkModel.InitialOrdersAgree | PKPy/model.py:115-118 | the order as written and the state order agree exactly when there is no subcutaneous compartment or no other one |
| PkModel.AsWrittenMisplacesSubcutaneous | PKPy/model.py:115-118 | with both, `ode_system` reads the subcutaneous amount from the last entry, while `y0` puts it at index 1 |
| PkModel.InitialStateWitness | PKPy/model.py:115-118 | a dose of 100 in the subcutaneous compartment starts in the peripheral slot as written |
| PkModel.KeyOf | PKPy/model.py:128 | strings, None and ints are their own keys; lists and dicts are unhashable and raise TypeError |
| PkModel.Model.KeyTimeseries | PKPy/model.py:126-128 | the keying loop gives the same map or error as `Keyed` |
| PkModel.Keyed | PKPy/model.py:126-128 | keying succeeds exactly when there are at least as many rows as compartments and every name is hashable |
| PkModel.KeyedMeaning | PKPy/model.py:126-128 | keying succeeds iff there are enough rows and all names are hashable; the keys are the names, and a name no later compartment repeats holds its own row |
| PkModel.ParsedInit | PKPy/model.py:38-47 | a parsed configuration always builds a model whose flag and dose come from basic_parameters and whose list is the parsed records' compartments |
| PkModel.ParsedCompartments | PKPy/model.py:47 | the compartments of a parsed configuration are one central, the peripherals, then the subcutaneous one iff the flag is 1, each with its kind |
| PkModel.LoadSucceeds | PKPy/model.py:38-70 | an accepted configuration builds a model with nonzero volumes and a defined, non-negative dose rate, positive iff continuous or t == 0 |
| PkModel.LoadedRoles | PKPy/model.py:48-53 | with a flag of 1 or false/0, central, subcutaneous and others are the parser's groups, and the state order is the compartment list |
| PkModel.TruthyFlagNotOne | PKPy/model.py:48-51 | a flag such as 2 is accepted without a subcutaneous compartment, yet the model takes its last, non-subcutaneous compartment as subcutaneous |

## Left out

- Reading and decoding the system file (`Parser.__init__`, PKPy/system_parser.py:10-12 and system_parser.py:12-14) is I/O. The parser is given the decoded configuration instead.
- The numerical integration (`scipy.integrate.solve_ivp`), the time span and `np.linspace` are a foreign library doing floating-point work. The solver's output rows are a parameter of `KeyTimeseries`.
- Floating point: amounts, volumes and rates are exact reals, so there is no rounding, NaN or infinity. A zero volume met during integration by numpy would give infinity; here it is ZeroDivisionError.
- `PyValues.NumOf`: the result does not keep the int/float distinction of Python arithmetic. That distinction does not change any value computed here.
- `SystemParser.SortCompartments`: sorting two or more records whose types are not all strings is taken to raise TypeError. Python sorts keys that are all numbers, or all lists, without raising. Such a configuration is rejected either way, because no record is central and no type is a role; only the exception differs.
- `SystemParser.Fill`: absent attributes are added in the fixed order name, type, volume, initial_amount, rate_in, rate_out. Python adds them in set-iteration order, which is unspecified. Only the order of keys in a record differs.
- `PkModel.OdeRhsAsWritten` does not model the writes to `self.central_amount` and `self.other_amounts` at model.py:87. They happen just before the NameError and nothing reads them.
- `PkModel.Model.KeyTimeseries`: the result is a map, so the insertion order of the Python dict is not modelled.
- Dose as two lists of times and amounts (the docstring at system_parser.py:9) is not implemented by the code, so it is not modelled.
- Duplicate keys in the JSON object are not modelled: the configuration is a sequence of distinct entries as `json.load` builds them.
- The plotting code (PKPy/plots.py, plots.py), the stub model.py and parser.py, setupy.py, the example scripts and `Model.plot` are not part of this model.

## Findings

| source | as written | input that shows it | evidently intended | confidence | as-written member | corrected member |
|---|---|---|---|---|---|---|
| PKPy/model.py:87 | without a subcutaneous compartment, the unpacking binds `self.central_amount` and `self.other_amounts`, so the locals read at lines 91-100 are unbound and `ode_system` raises NameError | one central compartment (volume 2, rate_out 1), continuous dose 4, flag 0, `y = [6.0]` | unpack into the locals `central_amount, *other_amounts`, as in the other branch, giving `[1.0]` | not executed | PkModel.OdeRhsAsWritten (PkModel.NameErrorWitness, PkModel.AsWrittenDeviation) | PkModel.OdeRhs (PkModel.Model.OdeSystem, PkModel.MassBalance) |
| PKPy/model.py:115-118 | with a subcutaneous compartment, `y0` is central, subcutaneous, then peripherals, but `ode_system` and the keying read central, peripherals, then subcutaneous | central and peripheral compartments with initial amount 0, subcutaneous with 100: `y0 = [0, 100, 0]` instead of `[0, 0, 100]` | build `y0` in the state order, subcutaneous last | not executed | PkModel.Model.InitialValuesAsWritten (PkModel.AsWrittenMisplacesSubcutaneous, PkModel.InitialStateWitness) | PkModel.Model.InitialValues (PkModel.InitialOrdersAgree, PkModel.LoadedRoles) |
