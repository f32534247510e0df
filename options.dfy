/**
 * The values config_setOption accepts, and the checks it applies to the rows
 * of a markov distribution matrix.
 */
module Options {
  import opened Base
  import opened Strategy

  /** Which variables must be solved: the string 'all' (or any name), or a list of names. */
  datatype Targets = TargetName(name: string) | TargetList(names: seq<string>)

  /** A row's boolVarName: absent or empty, a variable name, or some other truthy non-string. */
  datatype BoolRef = NoBoolRef | BoolRefName(name: string) | BoolRefOther

  /**
   * One row of a markov matrix: the deprecated `boolean` and `booleanId`
   * fields, the boolVarName, and the variable index the compiler stores.
   */
  datatype MarkovRow = MarkovRow(
    vector: seq<int>,
    boolean: bool,
    booleanId: Option<int>,
    boolVarName: BoolRef,
    boolVarIndex: Option<int>)

  /** The distribution options of one variable, as far as the compiler reads them. */
  datatype DistOptions = DistOptions(valtype: string, matrix: Option<seq<MarkovRow>>, expandVectorsWith: bool)

  /** A varStrategy value: only an object is accepted. */
  datatype VarStrategyValue = VsFunction | VsString(s: string) | VsObject(o: StratObject) | VsOther

  /** An option value, by the shape each option expects. */
  datatype OptionValue =
    | StrategyValue(strategy: VarStrategyValue)
    | NameValue(name: string)
    | TargetsValue(targets: Targets)
    | OverridesValue(overrides: seq<(string, DistOptions)>)
    | DistValue(dist: DistOptions)
    | CallbackValue

  /** The matrix a markov row list starts from: a missing matrix becomes one empty row when vectors are expanded. */
  function MarkovMatrix(o: DistOptions): (r: Result<seq<MarkovRow>>)
    ensures o.matrix.Some? ==> r == Ok(o.matrix.value)
    ensures o.matrix.None? ==> (r.Ok? <==> o.expandVectorsWith)
    ensures r.Err? ==> r.error == MarkovMissingDistribution
    ensures o.matrix.None? && r.Ok? ==> |r.value| == 1 && r.value[0].vector == [] && r.value[0].boolVarName.NoBoolRef?
  {
    match o.matrix
    case Some(m) => Ok(m)
    case None =>
      if o.expandVectorsWith then Ok([MarkovRow([], false, None, NoBoolRef, None)])
      else Err(MarkovMissingDistribution)
  }

  /**
   * The check of one row: the deprecated fields are refused, a non-string
   * boolVarName is refused, and a named row records the index `lookup`
   * gives its name (-1 when it is not declared).
   */
  function CheckRow(row: MarkovRow, lookup: map<string, nat>): (r: Result<MarkovRow>)
    ensures r.Ok? <==> !row.boolean && row.booleanId.None? && !row.boolVarName.BoolRefOther?
    ensures r.Err? ==> r.error == (if row.boolean then MarkovRowBoolean
                                  else if row.booleanId.Some? then MarkovRowBooleanId
                                  else MarkovRowBadBoolVarName)
    ensures r.Ok? ==> r.value.(boolVarIndex := row.boolVarIndex) == row
    ensures r.Ok? && row.boolVarName.BoolRefName? && row.boolVarName.name != "" ==>
              var nm := row.boolVarName.name;
              r.value.boolVarIndex == Some(if nm in lookup then lookup[nm] as int else -1)
    ensures r.Ok? && !(row.boolVarName.BoolRefName? && row.boolVarName.name != "") ==> r.value == row
  {
    if row.boolean then Err(MarkovRowBoolean)
    else if row.booleanId.Some? then Err(MarkovRowBooleanId)
    else match row.boolVarName
      case BoolRefOther => Err(MarkovRowBadBoolVarName)
      case NoBoolRef => Ok(row)
      case BoolRefName(nm) =>
        if nm == "" then Ok(row)
        else Ok(row.(boolVarIndex := Some(if nm in lookup then lookup[nm] as int else -1)))
  }

  /** The index of the first row CheckRow refuses, or |rows| when it accepts them all. */
  function FirstBadRow(rows: seq<MarkovRow>, lookup: map<string, nat>): (k: nat)
    ensures k <= |rows|
    ensures forall i :: 0 <= i < k ==> CheckRow(rows[i], lookup).Ok?
    ensures k < |rows| ==> CheckRow(rows[k], lookup).Err?
    decreases |rows|
  {
    if |rows| == 0 then 0
    else if CheckRow(rows[0], lookup).Err? then 0
    else 1 + FirstBadRow(rows[1..], lookup)
  }

  /** The rows once the first k have been checked: each of those is what CheckRow makes of it. */
  function CheckedRows(rows: seq<MarkovRow>, lookup: map<string, nat>, k: nat): (out: seq<MarkovRow>)
    requires k <= FirstBadRow(rows, lookup)
    ensures |out| == |rows|
    ensures forall i :: 0 <= i < |rows| ==> out[i] == if i < k then CheckRow(rows[i], lookup).value else rows[i]
  {
    seq(|rows|, i requires 0 <= i < |rows| => if i < k then CheckRow(rows[i], lookup).value else rows[i])
  }

  /**
   * The options the varValueStrat case leaves stored for a variable: for a
   * markov variable the (possibly expanded) matrix with every row checked
   * up to the first refused one.
   */
  function StoredOptions(o: DistOptions, lookup: map<string, nat>): (s: DistOptions)
    ensures s.valtype == o.valtype && s.expandVectorsWith == o.expandVectorsWith
    ensures o.valtype != "markov" || MarkovMatrix(o).Err? ==> s == o
  {
    if o.valtype != "markov" then o
    else match MarkovMatrix(o)
      case Err(_) => o
      case Ok(m) => o.(matrix := Some(CheckedRows(m, lookup, FirstBadRow(m, lookup))))
  }

  /** Whether the varValueStrat case succeeds, and the error it raises otherwise. */
  function ValueStratOutcome(o: DistOptions, lookup: map<string, nat>): (r: Result<()>)
    ensures o.valtype != "markov" ==> r.Ok?
    ensures r.Ok? && o.valtype == "markov" ==>
              MarkovMatrix(o).Ok? && forall row :: row in MarkovMatrix(o).value ==> CheckRow(row, lookup).Ok?
  {
    if o.valtype != "markov" then Ok(())
    else match MarkovMatrix(o)
      case Err(e) => Err(e)
      case Ok(m) =>
        var k := FirstBadRow(m, lookup);
        if k == |m| then Ok(()) else Err(CheckRow(m[k], lookup).error)
  }

  /** The checks of the varStrategy case: only an object without `name` or `dist_name` is accepted. */
  function StrategyCheck(v: VarStrategyValue): (r: Result<StratObject>)
    ensures r.Ok? <==> v.VsObject? && !Truthy(v.o.name) && !Truthy(v.o.distName)
    ensures r.Ok? ==> r.value == v.o
  {
    match v
    case VsFunction => Err(VarStrategyFunction)
    case VsString(_) => Err(VarStrategyString)
    case VsOther => Err(VarStrategyNotObject)
    case VsObject(o) =>
      if Truthy(o.name) then Err(VarStrategyHasName)
      else if Truthy(o.distName) then Err(VarStrategyHasDistName)
      else Ok(o)
  }

  /** A target list must be non-empty: an empty name or an empty list is refused. */
  predicate HasTargets(t: Targets)
  {
    match t
    case TargetName(s) => s != ""
    case TargetList(l) => l != []
  }

  /** The option names config_setOption recognises, the deprecated and removed ones included. */
  const KnownOptions: set<string> := {"varStratOverride", "varStrategy", "valueStrategy", "targeted_var_names",
    "varStratOverrides", "varValueStrat", "timeoutCallback", "var", "val", "rng"}

  /** The value shape each known option expects. */
  predicate OptionShape(name: string, value: OptionValue)
  {
    && (name == "varStrategy" ==> value.StrategyValue?)
    && (name == "valueStrategy" ==> value.NameValue?)
    && (name == "targeted_var_names" ==> value.TargetsValue?)
    && (name == "varStratOverrides" ==> value.OverridesValue?)
    && (name == "varValueStrat" ==> value.DistValue?)
  }

  /** The options entries no name of which is set yet. */
  predicate Unkeyed(opts: seq<(string, DistOptions)>, name: string)
  {
    forall i :: 0 <= i < |opts| ==> opts[i].0 != name
  }

  /** Every override entry names a different variable. */
  predicate DistinctKeys(ov: seq<(string, DistOptions)>)
  {
    forall i, j :: 0 <= i < j < |ov| ==> ov[i].0 != ov[j].0
  }

  /** What the varValueStrat case stores for each of a list of entries. */
  function StoredAll(ov: seq<(string, DistOptions)>, lookup: map<string, nat>): (s: seq<(string, DistOptions)>)
    ensures |s| == |ov|
    ensures forall i :: 0 <= i < |ov| ==> s[i] == (ov[i].0, StoredOptions(ov[i].1, lookup))
  {
    seq(|ov|, i requires 0 <= i < |ov| => (ov[i].0, StoredOptions(ov[i].1, lookup)))
  }

  /** The index of the first override entry the varValueStrat case refuses, or |ov|. */
  function FirstFailing(ov: seq<(string, DistOptions)>, lookup: map<string, nat>): (k: nat)
    ensures k <= |ov|
    ensures forall i :: 0 <= i < k ==> ValueStratOutcome(ov[i].1, lookup).Ok?
    ensures k < |ov| ==> ValueStratOutcome(ov[k].1, lookup).Err?
    decreases |ov|
  {
    if |ov| == 0 then 0
    else if ValueStratOutcome(ov[0].1, lookup).Err? then 0
    else 1 + FirstFailing(ov[1..], lookup)
  }
}
