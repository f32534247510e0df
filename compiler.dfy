/**
 * The constraint compiler: the config record of config.js and the
 * propagator builders of propagator.js, which update it in place. The two
 * source files call each other, so they form one module here.
 */
module Compiler {
  import opened Base
  import opened Domain
  import opened Records
  import opened Rules
  import opened Folds
  import opened Names
  import opened Strategy
  import opened Adjacency
  import opened Effects
  import opened Options

  /** A variable to declare: anonymous (named after its index) or with a user name. */
  datatype VarName = Anon | Named(name: string)

  /** A constraint operand as the caller gives it: a variable name, a literal, or nothing. */
  datatype Operand = Name(name: string) | Num(value: nat) | Absent

  /** config_addConstraint's optional last argument: a reifier's op, or a sum/product result. */
  datatype Extra = NoExtra | OpName(op: string) | ResultVar(result: Operand)

  /** A deduplication entry: `true`, or the name of the result variable. */
  datatype HashEntry = Seen | SeenWithResult(result: string)

  /** The name a new variable at index i gets. */
  function NameFor(name: VarName, i: nat): string
  {
    match name
    case Anon => AnonName(i)
    case Named(s) => s
  }

  /** The constant cache after declaring variable i with domain d: a solved value is cached unless cached at a truthy index. */
  function CacheAfter(cache: map<nat, nat>, d: Dom, i: nat): map<nat, nat>
  {
    var v := GetValue(d);
    if v >= 0 && (v !in cache || cache[v] == 0) then cache[v := i] else cache
  }

  /** Every domain of d0 has only lost values in d, and d may have more entries. */
  ghost predicate Shrunk(d0: seq<Dom>, d: seq<Dom>)
  {
    |d0| <= |d| && forall i :: 0 <= i < |d0| ==> d[i] <= d0[i]
  }

  lemma ShrunkTrans(d0: seq<Dom>, d1: seq<Dom>, d2: seq<Dom>)
    requires Shrunk(d0, d1) && Shrunk(d1, d2)
    ensures Shrunk(d0, d2)
  {
  }

  /** The dedupe entry config_dedupeConstraint records: the result name, or `true` when it is absent or empty. */
  function EntryFor(result: Option<string>): HashEntry
  {
    if result.Some? && result.value != "" then SeenWithResult(result.value) else Seen
  }

  /** Declaring a constant keeps every name already taken from the constant cache. */
  lemma CachedNamesStable(ops: seq<Operand>, i: nat, names: seq<Operand>, n0: seq<string>, c0: map<nat, nat>,
                          n1: seq<string>, c1: map<nat, nat>, v: nat, x: nat)
    requires i <= |ops| == |names|
    requires forall u :: u in c0 ==> c0[u] < |n0|
    requires forall k :: 0 <= k < i && ops[k].Num? ==> ops[k].value in c0 && names[k] == Name(n0[c0[ops[k].value]])
    requires |n0| <= |n1| && n1[..|n0|] == n0
    requires c1 == c0[v := x] && (v in c0 ==> x == c0[v])
    ensures forall k :: 0 <= k < i && ops[k].Num? ==> ops[k].value in c1 && names[k] == Name(n1[c1[ops[k].value]])
  {
    forall k | 0 <= k < i && ops[k].Num?
      ensures ops[k].value in c1 && names[k] == Name(n1[c1[ops[k].value]])
    {
      var u := ops[k].value;
      assert c1[u] == c0[u];
      assert n1[c0[u]] == n1[..|n0|][c0[u]];
    }
  }

  /** The builder kind of a comparison constraint name. */
  function BinKindOf(name: string): BinKind
    requires BinaryOp(name)
  {
    match name
    case "eq" => BEq
    case "neq" => BNeq
    case "lt" => BLt
    case "lte" => BLte
    case "gt" => BGt
    case "gte" => BGte
  }

  /** The position config_generateMarkovs stops at: the first undeclared or markov entry, or the end. */
  function MarkovStop(opts: seq<(string, DistOptions)>, index: map<string, nat>): (k: nat)
    ensures k <= |opts|
    ensures forall j :: 0 <= j < k ==> opts[j].0 in index && opts[j].1.valtype != "markov"
    ensures k < |opts| ==> opts[k].0 !in index || opts[k].1.valtype == "markov"
    decreases |opts|
  {
    if opts == [] || opts[0].0 !in index || opts[0].1.valtype == "markov" then 0
    else 1 + MarkovStop(opts[1..], index)
  }

  /** Every name in every priority list is declared. */
  predicate StrategyNamesDeclared(levels: seq<StratLevel>, index: map<string, nat>)
  {
    forall i, n :: 0 <= i < |levels| && levels[i].priorityByName.Some? && n in levels[i].priorityByName.value ==> n in index
  }

  /** The priority map config_populateVarStrategyListHash gives a list of variable indexes. */
  ghost predicate IsPriorityMap(indexes: seq<nat>, m: map<int, nat>)
  {
    (forall k :: k in m <==> k in indexes)
    && (forall k :: k in m ==> 1 <= m[k] <= |indexes|)
    && (forall i :: 0 <= i < |indexes| ==>
          indexes[i] in m && m[indexes[i]] <= |indexes| - i
          && (m[indexes[i]] == |indexes| - i <==> forall j :: i < j < |indexes| ==> indexes[j] != indexes[i]))
  }

  /** The index of each name in a list of declared names. */
  function IndexesOf(names: seq<string>, index: map<string, nat>): (xs: seq<nat>)
    requires forall n :: n in names ==> n in index
    ensures |xs| == |names| && forall j :: 0 <= j < |names| ==> xs[j] == index[names[j]]
  {
    seq(|names|, j requires 0 <= j < |names| => index[names[j]])
  }

  /** l is l0 with its priority list indexed, when it has one; nothing else differs. */
  ghost predicate PriorityIndexed(l0: StratLevel, l: StratLevel, index: map<string, nat>)
  {
    if l0.priorityByName.None? then l == l0
    else
      var list := l0.priorityByName.value;
      l.(priorityByIndex := None) == l0.(priorityByIndex := None) && l.priorityByIndex.Some?
      && (forall n :: n in list ==> n in index)
      && IsPriorityMap(IndexesOf(list, index), l.priorityByIndex.value)
  }

  /** The operands are all names of declared variables. */
  predicate AllDeclared(ops: seq<Operand>, index: map<string, nat>)
  {
    forall i :: 0 <= i < |ops| ==> ops[i].Name? && ops[i].name in index
  }

  /** The operand names the dedupe key joins; an absent operand joins as the empty string. */
  function OperandNames(ops: seq<Operand>): (names: seq<string>)
    ensures |names| == |ops| && forall i :: 0 <= i < |ops| && ops[i].Name? ==> names[i] == ops[i].name
  {
    seq(|ops|, i requires 0 <= i < |ops| => if ops[i].Name? then ops[i].name else "")
  }

  /** c extends c0 by at most one entry. */
  ghost predicate Appended<T>(c0: seq<T>, c: seq<T>)
  {
    |c0| <= |c| <= |c0| + 1 && c[..|c0|] == c0
  }

  /** A name list that only grows keeps every declared name declared. */
  lemma KeysKept(n0: seq<string>, v0: map<string, nat>, n1: seq<string>, v1: map<string, nat>)
    requires forall name :: name in v0 ==> v0[name] < |n0| && n0[v0[name]] == name
    requires |n0| <= |n1| && n1[..|n0|] == n0
    requires forall i :: 0 <= i < |n1| ==> n1[i] in v1
    ensures v0.Keys <= v1.Keys
  {
    forall name | name in v0 ensures name in v1 {
      assert n1[v0[name]] == n1[..|n0|][v0[name]];
    }
  }

  /**
   * After config_compileConstants, operands that were declared names or
   * literals are declared names, and a list of names only is left as it is.
   */
  lemma CompiledDeclared(ops: seq<Operand>, out: seq<Operand>, names: seq<string>, index: map<string, nat>, cache: map<nat, nat>)
    requires |out| == |ops|
    requires forall i :: 0 <= i < |ops| ==> ops[i].Num? || (ops[i].Name? && ops[i].name in index)
    requires forall i :: 0 <= i < |ops| && !ops[i].Num? ==> out[i] == ops[i]
    requires forall v :: v in cache ==> cache[v] < |names|
    requires forall i :: 0 <= i < |ops| && ops[i].Num? ==> ops[i].value in cache && out[i] == Name(names[cache[ops[i].value]])
    requires forall i :: 0 <= i < |names| ==> names[i] in index
    ensures AllDeclared(out, index)
    ensures (forall i :: 0 <= i < |ops| ==> ops[i].Name?) ==> out == ops
  {
  }

  /**
   * The row loop of the varValueStrat case: rows are checked in order, each
   * accepted row replaced by its checked form, up to the first refused row,
   * whose index is returned (|rows| when all pass).
   */
  method CheckRows(rows: seq<MarkovRow>, lookup: map<string, nat>) returns (out: seq<MarkovRow>, k: nat)
    ensures k == FirstBadRow(rows, lookup) && out == CheckedRows(rows, lookup, k)
  {
    out := rows;
    k := 0;
    assert CheckedRows(rows, lookup, 0) == rows;
    while k < |rows|
      invariant k <= FirstBadRow(rows, lookup) && out == CheckedRows(rows, lookup, k)
    {
      var c := CheckRow(rows[k], lookup);
      if c.Err? {
        return;
      }
      out := out[k := c.value];
      assert out == CheckedRows(rows, lookup, k + 1);
      k := k + 1;
    }
  }

  /** Storing one more entry extends StoredAll by that entry's stored options. */
  lemma StoredAllSnoc(ov: seq<(string, DistOptions)>, i: nat, lookup: map<string, nat>)
    requires i < |ov|
    ensures StoredAll(ov[..i + 1], lookup) == StoredAll(ov[..i], lookup) + [(ov[i].0, StoredOptions(ov[i].1, lookup))]
  {
    assert ov[..i + 1] == ov[..i] + [ov[i]];
  }

  /** An override entry whose name is new and differs from the earlier entries' is still unset when its turn comes. */
  lemma StillUnkeyed(opts: seq<(string, DistOptions)>, ov: seq<(string, DistOptions)>, i: nat, lookup: map<string, nat>)
    requires i < |ov| && DistinctKeys(ov) && Unkeyed(opts, ov[i].0)
    ensures Unkeyed(opts + StoredAll(ov[..i], lookup), ov[i].0)
  {
    var s := opts + StoredAll(ov[..i], lookup);
    forall j | 0 <= j < |s| ensures s[j].0 != ov[i].0 {
      if j >= |opts| {
        assert s[j].0 == ov[j - |opts|].0;
      }
    }
  }

  class Config {
    var allVarNames: seq<string>
    /** The name -> index trie, as a map; a later duplicate name (past 100 variables) overwrites. */
    var varIndex: map<string, nat>
    var initialDomains: seq<Dom>
    var constantCache: map<nat, nat>
    var constraintHash: map<string, HashEntry>
    var allConstraints: seq<Constraint>
    var propagators: seq<Propagator>
    var varToPropagators: seq<seq<nat>>
    var constrainedAway: seq<nat>
    /** The var strategy and its fallbacks, outermost first. */
    var varStratConfig: seq<StratLevel>
    var valueStratName: string
    var targetedVars: Targets
    /** Per-variable options, in the order they were set. */
    var varDistOptions: seq<(string, DistOptions)>

    /** The tables that declaring variables and appending propagators extend. */
    function NumVars(): nat
      reads this`allVarNames
    {
      |allVarNames|
    }

    /** The name map and the name list agree. */
    ghost predicate NamesValid()
      reads this`allVarNames, this`varIndex
    {
      (forall name :: name in varIndex ==> varIndex[name] < |allVarNames| && allVarNames[varIndex[name]] == name)
      && (forall name :: name in allVarNames ==> name in varIndex)
    }

    ghost predicate CacheValid()
      reads this`allVarNames, this`constantCache
    {
      forall v :: v in constantCache ==> constantCache[v] < |allVarNames|
    }

    ghost predicate HashValid()
      reads this`varIndex, this`constraintHash
    {
      forall k :: k in constraintHash && constraintHash[k].SeenWithResult? ==> constraintHash[k].result in varIndex
    }

    ghost predicate ConstraintsValid()
      reads this`allVarNames, this`allConstraints
    {
      forall c :: c in allConstraints ==> WellFormed(c, |allVarNames|)
    }

    ghost predicate PropsValid()
      reads this`allVarNames, this`propagators
    {
      forall p :: p in propagators ==> InRange(p, |allVarNames|)
    }

    ghost predicate AwayValid()
      reads this`allVarNames, this`constrainedAway
    {
      forall v :: v in constrainedAway ==> v < |allVarNames|
    }

    /** Every index the config records names a declared variable. */
    ghost predicate Valid()
      reads this
    {
      |initialDomains| == |allVarNames|
      && NamesValid() && CacheValid() && HashValid() && ConstraintsValid() && PropsValid() && AwayValid()
    }

    /** trie_get: the index of a declared name, -1 otherwise. */
    function Lookup(name: string): (i: int)
      reads this`allVarNames, this`varIndex
      requires NamesValid()
      ensures i >= 0 <==> name in varIndex
      ensures i >= 0 ==> i < |allVarNames| && allVarNames[i] == name
    {
      if name in varIndex then varIndex[name] else -1
    }

    /** config_create: no variables, no constraints, the default strategies. */
    constructor ()
      ensures Valid()
      ensures allVarNames == [] && varIndex == map[] && initialDomains == [] && constantCache == map[]
      ensures constraintHash == map[] && allConstraints == [] && propagators == [] && varToPropagators == []
      ensures constrainedAway == [] && varStratConfig == [CreateVarStratConfig(None)]
      ensures valueStratName == "min" && targetedVars == TargetName("all") && varDistOptions == []
    {
      allVarNames := [];
      varIndex := map[];
      initialDomains := [];
      constantCache := map[];
      constraintHash := map[];
      allConstraints := [];
      propagators := [];
      varToPropagators := [];
      constrainedAway := [];
      varStratConfig := [CreateVarStratConfig(None)];
      valueStratName := "min";
      targetedVars := TargetName("all");
      varDistOptions := [];
    }

    // -------------------------------------------------------------------------
    // Variables
    // -------------------------------------------------------------------------

    /**
     * _config_addVar. A user name must be non-empty and not numeric; while
     * fewer than 100 variables exist it must also be new. The variable gets
     * the next index, and a solved domain's value is cached.
     */
    method AddVar(name: VarName, dom: Dom) returns (r: Result<nat>)
      requires Valid() && dom != {}
      modifies this`allVarNames, this`varIndex, this`initialDomains, this`constantCache
      ensures Valid()
      ensures var i := old(NumVars());
              r.Err? <==> (name.Named? && (name.name == "" || IsNumericName(name.name)))
                          || (i < 100 && NameFor(name, i) in old(varIndex))
      ensures r.Err? ==> unchanged(this)
      ensures r.Err? ==> r.error == (if name.Named? && name.name == "" then EmptyVarName
                                    else if name.Named? && IsNumericName(name.name) then NumericVarName(name.name)
                                    else DuplicateVarName(NameFor(name, old(NumVars()))))
      ensures r.Ok? ==> var i, nm := old(NumVars()), NameFor(name, old(NumVars()));
              r.value == i
              && allVarNames == old(allVarNames) + [nm] && initialDomains == old(initialDomains) + [dom]
              && varIndex == old(varIndex)[nm := i] && constantCache == CacheAfter(old(constantCache), dom, i)
    {
      var i := |allVarNames|;
      var nm := NameFor(name, i);
      if name.Named? {
        if nm == "" { return Err(EmptyVarName); }
        if IsNumericName(nm) { return Err(NumericVarName(nm)); }
      }
      if i < 100 && nm in varIndex {
        return Err(DuplicateVarName(nm));
      }
      Declare(nm, dom);
      r := Ok(i);
    }

    /** The bookkeeping of _config_addVar once the name is accepted. */
    method Declare(nm: string, dom: Dom)
      requires Valid()
      modifies this`allVarNames, this`varIndex, this`initialDomains, this`constantCache
      ensures Valid()
      ensures var i := old(NumVars());
              allVarNames == old(allVarNames) + [nm] && initialDomains == old(initialDomains) + [dom]
              && varIndex == old(varIndex)[nm := i] && constantCache == CacheAfter(old(constantCache), dom, i)
    {
      var i := |allVarNames|;
      constantCache := CacheAfter(constantCache, dom, i);
      initialDomains := initialDomains + [dom];
      allVarNames := allVarNames + [nm];
      varIndex := varIndex[nm := i];
      forall c | c in allConstraints ensures WellFormed(c, i + 1) {
        assert WellFormed(c, i);
      }
    }

    /** config_addVarNothing: the full range SUB..SUP. */
    method AddVarNothing(name: VarName) returns (r: Result<nat>)
      requires Valid()
      modifies this`allVarNames, this`varIndex, this`initialDomains, this`constantCache
      ensures Valid()
      ensures r.Err? ==> unchanged(this)
      ensures r.Ok? ==> r.value == old(NumVars()) && initialDomains == old(initialDomains) + [CreateRange(SUB, SUP)]
                        && allVarNames == old(allVarNames) + [NameFor(name, old(NumVars()))]
      ensures name.Anon? && r.Err? ==> r.error == DuplicateVarName(AnonName(old(NumVars())))
      ensures constantCache == old(constantCache)
    {
      assert SUB in CreateRange(SUB, SUP);
      FullRangeUnsolved();
      r := AddVar(name, CreateRange(SUB, SUP));
    }

    /** config_addVarAnonNothing */
    method AddVarAnonNothing() returns (r: Result<nat>)
      requires Valid()
      modifies this`allVarNames, this`varIndex, this`initialDomains, this`constantCache
      ensures Valid()
      ensures r.Err? ==> unchanged(this) && r.error == DuplicateVarName(AnonName(old(NumVars())))
      ensures r.Ok? ==>
                r.value == old(NumVars()) && allVarNames == old(allVarNames) + AnonNames(old(NumVars()), 1)
                && initialDomains == old(initialDomains) + FullRanges(1)
                && initialDomains == old(initialDomains) + [CreateRange(SUB, SUP)]
    {
      r := AddVarNothing(Anon);
      if r.Ok? {
        assert AnonNames(old(NumVars()), 1) == [AnonName(old(NumVars()))];
        assert FullRanges(1) == [CreateRange(SUB, SUP)];
      }
    }

    /** config_addVarRange: the values lo..hi. */
    method AddVarRange(name: VarName, lo: nat, hi: nat) returns (r: Result<nat>)
      requires Valid() && lo <= hi
      modifies this`allVarNames, this`varIndex, this`initialDomains, this`constantCache
      ensures Valid()
      ensures r.Err? ==> unchanged(this)
      ensures r.Ok? ==> r.value == old(NumVars()) && initialDomains == old(initialDomains) + [CreateRange(lo, hi)]
                        && allVarNames == old(allVarNames) + [NameFor(name, old(NumVars()))]
      ensures name.Anon? && r.Err? ==> r.error == DuplicateVarName(AnonName(old(NumVars())))
    {
      assert lo in CreateRange(lo, hi);
      r := AddVar(name, CreateRange(lo, hi));
    }

    /** config_addVarConstant: the single value v. */
    method AddVarConstant(name: VarName, v: nat) returns (r: Result<nat>)
      requires Valid()
      modifies this`allVarNames, this`varIndex, this`initialDomains, this`constantCache
      ensures Valid()
      ensures r.Err? ==> unchanged(this)
      ensures r.Ok? ==> r.value == old(NumVars()) && initialDomains == old(initialDomains) + [{v}]
                        && allVarNames == old(allVarNames) + [NameFor(name, old(NumVars()))]
                        && constantCache == CacheAfter(old(constantCache), {v}, old(NumVars()))
      ensures name.Anon? && r.Err? ==> r.error == DuplicateVarName(AnonName(old(NumVars())))
    {
      assert CreateRange(v, v) == {v};
      r := AddVar(name, CreateRange(v, v));
    }

    /**
     * config_addVarAnonConstant: a cached value returns its variable and adds
     * nothing; otherwise a new anonymous variable solved to v is added and cached.
     */
    method AddVarAnonConstant(v: nat) returns (r: Result<nat>)
      requires Valid()
      modifies this`allVarNames, this`varIndex, this`initialDomains, this`constantCache
      ensures Valid()
      ensures old(v in constantCache) ==> r == Ok(old(constantCache[v])) && unchanged(this)
      ensures r.Err? ==> unchanged(this) && r.error == DuplicateVarName(AnonName(old(NumVars())))
      ensures r.Ok? ==> r.value < NumVars() && constantCache == old(constantCache)[v := r.value]
      ensures r.Ok? && old(v !in constantCache) ==>
                r.value == old(NumVars()) && initialDomains == old(initialDomains) + [{v}]
                && allVarNames == old(allVarNames) + [AnonName(old(NumVars()))]
    {
      if v in constantCache {
        return Ok(constantCache[v]);
      }
      r := AddVarConstant(Anon, v);
    }

    /** config_addVarAnonRange: a one-value range is an anonymous constant. */
    method AddVarAnonRange(lo: nat, hi: nat) returns (r: Result<nat>)
      requires Valid() && lo <= hi
      modifies this`allVarNames, this`varIndex, this`initialDomains, this`constantCache
      ensures Valid()
      ensures r.Err? ==> unchanged(this) && r.error == DuplicateVarName(AnonName(old(NumVars())))
      ensures r.Ok? ==> r.value < NumVars()
      ensures lo == hi && old(lo in constantCache) ==> r == Ok(old(constantCache[lo])) && unchanged(this)
      ensures r.Ok? && lo == hi ==> constantCache == old(constantCache)[lo := r.value]
      ensures r.Ok? && lo == hi && old(lo !in constantCache) ==>
                r.value == old(NumVars()) && initialDomains == old(initialDomains) + [{lo}]
                && allVarNames == old(allVarNames) + [AnonName(old(NumVars()))]
      ensures r.Ok? && lo < hi ==>
                r.value == old(NumVars()) && initialDomains == old(initialDomains) + [CreateRange(lo, hi)]
                && allVarNames == old(allVarNames) + [AnonName(old(NumVars()))]
      ensures old(NumVars()) <= NumVars() && allVarNames[..old(NumVars())] == old(allVarNames)
    {
      if lo == hi {
        r := AddVarAnonConstant(lo);
      } else {
        r := AddVarRange(Anon, lo, hi);
      }
    }

    // -------------------------------------------------------------------------
    // Propagator builders (propagator.js)
    // -------------------------------------------------------------------------

    /** config_addPropagator */
    method AddPropagator(p: Propagator)
      requires Valid() && InRange(p, NumVars())
      modifies this`propagators
      ensures Valid()
      ensures propagators == old(propagators) + [p]
    {
      propagators := propagators + [p];
    }

    /** Write the two operand domains a binary rule produced and append its propagator, if any. */
    method ApplyBinary(k: BinKind, l: nat, r: nat)
      requires Valid() && l < NumVars() && r < NumVars()
      modifies this`initialDomains, this`propagators
      ensures Valid()
      ensures var e := BinEffect(k, old(initialDomains), l, r);
              initialDomains == e.0 && propagators == old(propagators) + e.1
    {
      var e := BinEffect(k, initialDomains, l, r);
      initialDomains := e.0;
      propagators := propagators + e.1;
    }

    /**
     * propagator_addEq: a solved side is copied over the other one; otherwise
     * both become their intersection and an 'eq' propagator is appended.
     */
    method AddEq(l: nat, r: nat)
      requires Valid() && l < NumVars() && r < NumVars()
      modifies this`initialDomains, this`propagators
      ensures Valid()
      ensures var n := EqRule(old(initialDomains[l]), old(initialDomains[r]));
              initialDomains == old(initialDomains)[l := n.a][r := n.b]
              && propagators == old(propagators) + if n.keep then [Create("eq", EqStepBare, l, r)] else []
    {
      ApplyBinary(BEq, l, r);
    }

    /** propagator_addNeq: only a solved left side is folded; disjoint domains need no propagator. */
    method AddNeq(l: nat, r: nat)
      requires Valid() && l < NumVars() && r < NumVars()
      modifies this`initialDomains, this`propagators
      ensures Valid()
      ensures var e := NeqEffect(old(initialDomains), l, r);
              initialDomains == e.0 && propagators == old(propagators) + e.1
    {
      var e := NeqEffect(initialDomains, l, r);
      initialDomains := e.0;
      propagators := propagators + e.1;
    }

    /** propagator_addLt */
    method AddLt(l: nat, r: nat)
      requires Valid() && l < NumVars() && r < NumVars()
      modifies this`initialDomains, this`propagators
      ensures Valid()
      ensures var n := LtRule(old(initialDomains[l]), old(initialDomains[r]));
              initialDomains == old(initialDomains)[l := n.a][r := n.b]
              && propagators == old(propagators) + if n.keep then [Create("lt", LtStepBare, l, r)] else []
    {
      ApplyBinary(BLt, l, r);
    }

    /** propagator_addLte */
    method AddLte(l: nat, r: nat)
      requires Valid() && l < NumVars() && r < NumVars()
      modifies this`initialDomains, this`propagators
      ensures Valid()
      ensures var n := LteRule(old(initialDomains[l]), old(initialDomains[r]));
              initialDomains == old(initialDomains)[l := n.a][r := n.b]
              && propagators == old(propagators) + if n.keep then [Create("lte", LteStepBare, l, r)] else []
    {
      ApplyBinary(BLte, l, r);
    }

    /** propagator_addGt: a > b is b < a. */
    method AddGt(l: nat, r: nat)
      requires Valid() && l < NumVars() && r < NumVars()
      modifies this`initialDomains, this`propagators
      ensures Valid()
      ensures var n := LtRule(old(initialDomains[r]), old(initialDomains[l]));
              initialDomains == old(initialDomains)[r := n.a][l := n.b]
              && propagators == old(propagators) + if n.keep then [Create("lt", LtStepBare, r, l)] else []
    {
      AddLt(r, l);
    }

    /** propagator_addGte: a >= b is b <= a. */
    method AddGte(l: nat, r: nat)
      requires Valid() && l < NumVars() && r < NumVars()
      modifies this`initialDomains, this`propagators
      ensures Valid()
      ensures var n := LteRule(old(initialDomains[r]), old(initialDomains[l]));
              initialDomains == old(initialDomains)[r := n.a][l := n.b]
              && propagators == old(propagators) + if n.keep then [Create("lte", LteStepBare, r, l)] else []
    {
      AddLte(r, l);
    }

    /**
     * propagator_addReified: rewrite `res = (l op r)` when the domains allow
     * it, otherwise append a 'reified' propagator; an unknown op fails unless
     * all three operands are already solved.
     */
    method AddReified(op: string, l: nat, r: nat, res: nat) returns (result: Result<()>)
      requires Valid() && l < NumVars() && r < NumVars() && res < NumVars()
      modifies this`initialDomains, this`propagators
      ensures Valid()
      ensures var p := ReifiedPlan(op, old(initialDomains[l]), old(initialDomains[r]), old(initialDomains[res]));
              if p.Fail? then result == Err(UnknownReifiedOp) && unchanged(this)
              else
                var e := PlanEffect(p, old(initialDomains), l, r, res);
                result == Ok(()) && initialDomains == e.0 && propagators == old(propagators) + e.1
    {
      var p := ReifiedPlan(op, initialDomains[l], initialDomains[r], initialDomains[res]);
      result := Ok(());
      match p {
        case Done =>
        case Fail =>
          result := Err(UnknownReifiedOp);
        case SetDom(s, d) =>
          initialDomains := initialDomains[SlotIndex(s, l, r, res) := d];
        case Build(k, x, y) =>
          ApplyBinary(k, SlotIndex(x, l, r, res), SlotIndex(y, l, r, res));
        case AppendReified(x, y, o, n, f, g, rf, rg) =>
          AddPropagator(Create("reified", ReifiedStepBare, SlotIndex(x, l, r, res), SlotIndex(y, l, r, res), res,
                               [Func(f), Func(g), Text(o), Text(n), Func(rf), Func(rg)]));
      }
    }

    /**
     * propagator_mulConstraintResolved: narrow the three domains of
     * `a * b = c` and report whether a propagator is no longer needed.
     */
    method MulConstraintResolved(a: nat, b: nat, c: nat) returns (resolved: bool)
      requires Valid() && a < NumVars() && b < NumVars() && c < NumVars()
      modifies this`initialDomains
      ensures Valid()
      ensures var m := MulRule(old(initialDomains), a, b, c);
              resolved == m.resolved && initialDomains == m.doms
    {
      var m := MulRule(initialDomains, a, b, c);
      initialDomains := m.doms;
      resolved := m.resolved;
    }

    /** propagator_addMul: a 'mul' propagator unless the domains resolve the product. */
    method AddMul(l: nat, r: nat, res: nat)
      requires Valid() && l < NumVars() && r < NumVars() && res < NumVars()
      modifies this`initialDomains, this`propagators
      ensures Valid()
      ensures var e := MulEffect(old(initialDomains), l, r, res);
              initialDomains == e.0 && propagators == old(propagators) + e.1
    {
      var resolved := MulConstraintResolved(l, r, res);
      if !resolved {
        AddPropagator(Create("mul", MulStep, l, r, res));
      }
    }

    /** propagator_addDiv */
    method AddDiv(l: nat, r: nat, res: nat)
      requires Valid() && l < NumVars() && r < NumVars() && res < NumVars()
      modifies this`propagators
      ensures Valid()
      ensures propagators == old(propagators) + [Create("div", DivStep, l, r, res)]
    {
      AddPropagator(Create("div", DivStep, l, r, res));
    }

    /** propagator_addMin */
    method AddMin(l: nat, r: nat, res: nat)
      requires Valid() && l < NumVars() && r < NumVars() && res < NumVars()
      modifies this`propagators
      ensures Valid()
      ensures propagators == old(propagators) + [Create("min", MinStep, l, r, res)]
    {
      AddPropagator(Create("min", MinStep, l, r, res));
    }

    /** propagator_addRing: one 'ring' propagator computing c from a and b with the named operator. */
    method AddRing(a: nat, b: nat, c: nat, opName: string, fn: Fn)
      requires Valid() && a < NumVars() && b < NumVars() && c < NumVars()
      modifies this`propagators
      ensures Valid()
      ensures propagators == old(propagators) + [Create("ring", RingStepBare, a, b, c, [Text(opName), Func(fn)])]
    {
      AddPropagator(Create("ring", RingStepBare, a, b, c, [Text(opName), Func(fn)]));
    }

    /** propagator_addRingPlusOrMul: the operator and its two inverses, one ring each. */
    method AddRingPlusOrMul(op: string, inv: string, opFn: Fn, invFn: Fn, l: nat, r: nat, res: nat)
      requires Valid() && l < NumVars() && r < NumVars() && res < NumVars()
      modifies this`propagators
      ensures Valid()
      ensures propagators == old(propagators) + RingTriple(op, inv, opFn, invFn, l, r, res)
    {
      AddRing(l, r, res, op, opFn);
      AddRing(res, r, l, inv, invFn);
      AddRing(res, l, r, inv, invFn);
      assert [Text(op), Func(opFn)] + seq(4, _ => NoArg) == [Text(op), Func(opFn), NoArg, NoArg, NoArg, NoArg];
      assert [Text(inv), Func(invFn)] + seq(4, _ => NoArg) == [Text(inv), Func(invFn), NoArg, NoArg, NoArg, NoArg];
    }

    /** propagator_addPlus */
    method AddPlus(l: nat, r: nat, res: nat)
      requires Valid() && l < NumVars() && r < NumVars() && res < NumVars()
      modifies this`propagators
      ensures Valid()
      ensures propagators == old(propagators) + PlusRings(l, r, res)
    {
      AddRingPlusOrMul("plus", "min", DomainPlus, DomainMinus, l, r, res);
    }

    /** propagator_addRingMul: the three rings, unless the domains resolve the product. */
    method AddRingMul(l: nat, r: nat, res: nat)
      requires Valid() && l < NumVars() && r < NumVars() && res < NumVars()
      modifies this`initialDomains, this`propagators
      ensures Valid()
      ensures var e := RingMulEffect(old(initialDomains), l, r, res);
              initialDomains == e.0 && propagators == old(propagators) + e.1
    {
      var resolved := MulConstraintResolved(l, r, res);
      if !resolved {
        AddRingPlusOrMul("mul", "div", DomainMul, DomainInvMul, l, r, res);
      }
    }

    /** propagator_addMarkov */
    method AddMarkov(v: nat)
      requires Valid() && v < NumVars()
      modifies this`propagators
      ensures Valid()
      ensures propagators == old(propagators) + [Create("markov", MarkovStepBare, v)]
    {
      AddPropagator(Create("markov", MarkovStepBare, v));
    }

    /** One row of propagator_addDistinct: xs[i] against every earlier position. */
    method AddNeqRow(xs: seq<nat>, i: nat)
      requires Valid() && AllBelow(xs, NumVars()) && i < |xs|
      modifies this`initialDomains, this`propagators
      ensures Valid()
      ensures PairsBelow(Row(xs, i), |old(initialDomains)|)
      ensures var e := NeqFold(old(initialDomains), Row(xs, i));
              initialDomains == e.0 && propagators == old(propagators) + e.1
    {
      ghost var d0, p0 := initialDomains, propagators;
      ghost var row := Row(xs, i);
      var j := 0;
      while j < i
        invariant 0 <= j <= i && Valid() && PairsBelow(row, |d0|) && PairsBelow(row[..j], |d0|)
        invariant initialDomains == NeqFold(d0, row[..j]).0 && propagators == p0 + NeqFold(d0, row[..j]).1
      {
        NeqRowStep(d0, row, j, p0, initialDomains, propagators);
        AddNeq(xs[i], xs[j]);
        j := j + 1;
      }
      assert row[..i] == row;
    }

    /** propagator_addDistinct: a neq for every pair of positions, row by row. */
    method AddDistinct(xs: seq<nat>)
      requires Valid() && AllBelow(xs, NumVars())
      modifies this`initialDomains, this`propagators
      ensures Valid()
      ensures PairsBelow(Pairs(xs), |old(initialDomains)|)
      ensures var e := NeqFold(old(initialDomains), Pairs(xs));
              initialDomains == e.0 && propagators == old(propagators) + e.1
    {
      ghost var d0, p0 := initialDomains, propagators;
      var i := 0;
      while i < |xs|
        invariant 0 <= i <= |xs| && Valid()
        invariant initialDomains == DistinctPrefix(d0, xs, i).0 && propagators == p0 + DistinctPrefix(d0, xs, i).1
      {
        DistinctStep(d0, xs, i, p0, initialDomains, propagators);
        AddNeqRow(xs, i);
        i := i + 1;
      }
      AllRows(d0, xs);
    }

    // -------------------------------------------------------------------------
    // Sums and products of many operands
    // -------------------------------------------------------------------------

    /**
     * propagator_addSum. No operands is an error; one is an eq with the
     * result and two a plus. Longer lists are split in halves, each half
     * summed into a fresh anonymous variable (the first half of a 3-list is
     * its first operand itself) and the two partial sums added up: one plus
     * for each join of SplitJoins, with the temporaries numbered from the
     * first free index. The ghost js is that list of joins.
     */
    method AddSum(xs: seq<nat>, res: nat) returns (r: Result<()>, ghost js: seq<Join>)
      requires Valid() && AllBelow(xs, NumVars()) && res < NumVars()
      modifies this`allVarNames, this`varIndex, this`initialDomains, this`constantCache, this`propagators
      ensures Valid() && NumVars() >= old(NumVars())
      ensures |xs| == 0 ==> r == Err(SumRequiresVars) && unchanged(this)
      ensures r.Err? && |xs| > 0 ==> r.error.DuplicateVarName?
      ensures |xs| == 1 ==>
                r == Ok(()) && unchanged(this`allVarNames) &&
                var n := EqRule(old(initialDomains[res]), old(initialDomains[xs[0]]));
                initialDomains == old(initialDomains)[res := n.a][xs[0] := n.b]
                && propagators == old(propagators) + if n.keep then [Create("eq", EqStepBare, res, xs[0])] else []
      ensures |xs| == 2 ==> r == Ok(()) && unchanged(this`allVarNames, this`initialDomains)
      ensures r.Ok? && |xs| >= 2 ==>
                allVarNames == old(allVarNames) + AnonNames(old(NumVars()), |xs| - 2)
                && initialDomains == old(initialDomains) + FullRanges(|xs| - 2)
                && js == SplitJoins(xs, res, old(NumVars())) && propagators == old(propagators) + PlusRingsOf(js)
    {
      js := [];
      if |xs| == 0 { return Err(SumRequiresVars), js; }
      if |xs| == 1 { AddEq(res, xs[0]); return Ok(()), js; }
      r, js := AddSumTree(xs, res);
    }

    /**
     * propagator_addSum for two or more operands: one plus for two, the
     * split in halves for more.
     */
    method AddSumTree(xs: seq<nat>, res: nat) returns (r: Result<()>, ghost js: seq<Join>)
      requires Valid() && AllBelow(xs, NumVars()) && res < NumVars() && |xs| >= 2
      modifies this`allVarNames, this`varIndex, this`initialDomains, this`constantCache, this`propagators
      ensures Valid() && NumVars() >= old(NumVars())
      ensures r.Err? ==> r.error.DuplicateVarName?
      ensures |xs| == 2 ==> r == Ok(()) && unchanged(this`allVarNames, this`initialDomains)
      ensures r.Ok? ==>
                allVarNames == old(allVarNames) + AnonNames(old(NumVars()), |xs| - 2)
                && initialDomains == old(initialDomains) + FullRanges(|xs| - 2)
                && js == SplitJoins(xs, res, old(NumVars())) && propagators == old(propagators) + PlusRingsOf(js)
      decreases |xs|, 3
    {
      if |xs| == 2 {
        AddPlus(xs[0], xs[1], res);
        js := SplitJoins(xs, res, old(NumVars()));
        SplitJoinsTwo(xs, res, old(NumVars()));
        assert AnonNames(old(NumVars()), 0) == [] && FullRanges(0) == [];
        return Ok(()), js;
      }
      r, js := SumSplit(xs, res);
    }

    /** The divide-and-conquer part of propagator_addSum, for three or more operands. */
    method SumSplit(xs: seq<nat>, res: nat) returns (r: Result<()>, ghost js: seq<Join>)
      requires Valid() && AllBelow(xs, NumVars()) && res < NumVars() && |xs| >= 3
      modifies this`allVarNames, this`varIndex, this`initialDomains, this`constantCache, this`propagators
      ensures Valid() && NumVars() >= old(NumVars())
      ensures r.Err? ==> r.error.DuplicateVarName?
      ensures r.Ok? ==>
                allVarNames == old(allVarNames) + AnonNames(old(NumVars()), |xs| - 2)
                && initialDomains == old(initialDomains) + FullRanges(|xs| - 2)
                && js == SplitJoins(xs, res, old(NumVars())) && propagators == old(propagators) + PlusRingsOf(js)
      decreases |xs|, 2
    {
      var n := |xs| / 2;
      SplitCounts(|xs|, n, |xs| - n);
      var first;
      ghost var js1;
      first, js1 := SumFirstHalf(xs, n);
      if first.Err? { return Err(first.error), js1; }
      r, js := SumSplitRest(old(allVarNames), old(initialDomains), old(propagators), js1, first.value, xs, res);
    }

    /**
     * The second half of a split sum and the join of the two halves, once
     * the first half's joins js1 (into t1) were made after the names names0
     * and the propagators props0.
     */
    method SumSplitRest(ghost names0: seq<string>, ghost doms0: seq<Dom>, ghost props0: seq<Propagator>,
                        ghost js1: seq<Join>, t1: nat, xs: seq<nat>, res: nat)
      returns (r: Result<()>, ghost js: seq<Join>)
      requires Valid() && AllBelow(xs, NumVars()) && res < NumVars() && t1 < NumVars() && |xs| >= 3
      requires var h := SplitHalf(xs[..|xs| / 2], |names0|); t1 == h.1 && js1 == h.0
      requires allVarNames == names0 + AnonNames(|names0|, |xs| / 2 - 1)
      requires initialDomains == doms0 + FullRanges(|xs| / 2 - 1) && propagators == props0 + PlusRingsOf(js1)
      modifies this`allVarNames, this`varIndex, this`initialDomains, this`constantCache, this`propagators
      ensures Valid() && NumVars() >= old(NumVars())
      ensures r.Err? ==> r.error.DuplicateVarName?
      ensures r.Ok? ==>
                allVarNames == names0 + AnonNames(|names0|, |xs| - 2)
                && initialDomains == doms0 + FullRanges(|xs| - 2)
                && js == SplitJoins(xs, res, |names0|) && propagators == props0 + PlusRingsOf(js)
      decreases |xs|, 1
    {
      var n := |xs| / 2;
      ghost var names1, doms1, p1 := allVarNames, initialDomains, propagators;
      ghost var js2;
      r, js2 := SumSecondHalf(t1, xs, n, res);
      js := js1 + js2;
      if r.Ok? {
        SumSplitJoined(names0, names1, allVarNames, doms0, doms1, initialDomains, props0, p1, propagators,
                       xs, res, js1, t1, js2);
      }
    }

    /** The first half of a split sum: its only operand, or a fresh variable holding its sum. */
    method SumFirstHalf(xs: seq<nat>, n: nat) returns (r: Result<nat>, ghost js: seq<Join>)
      requires Valid() && AllBelow(xs, NumVars()) && 1 <= n < |xs|
      modifies this`allVarNames, this`varIndex, this`initialDomains, this`constantCache, this`propagators
      ensures Valid() && NumVars() >= old(NumVars())
      ensures r.Err? ==> r.error.DuplicateVarName?
      ensures r.Ok? ==>
                r.value < NumVars()
                && allVarNames == old(allVarNames) + AnonNames(old(NumVars()), n - 1)
                && initialDomains == old(initialDomains) + FullRanges(n - 1)
      ensures r.Ok? ==>
                var h := SplitHalf(xs[..n], old(NumVars()));
                r.value == h.1 && js == h.0 && propagators == old(propagators) + PlusRingsOf(js)
      decreases |xs|, 0
    {
      if n > 1 {
        r, js := SumIntoFresh(xs[..n]);
      } else {
        r, js := Ok(xs[0]), [];
        assert AnonNames(old(NumVars()), 0) == [] && FullRanges(0) == [];
      }
    }

    /** The rest of a split sum: the second half into a fresh variable, then t1 plus it into res. */
    method SumSecondHalf(t1: nat, xs: seq<nat>, n: nat, res: nat) returns (r: Result<()>, ghost js: seq<Join>)
      requires Valid() && AllBelow(xs, NumVars()) && res < NumVars() && t1 < NumVars()
      requires 1 <= n < |xs| - 1
      modifies this`allVarNames, this`varIndex, this`initialDomains, this`constantCache, this`propagators
      ensures Valid() && NumVars() >= old(NumVars())
      ensures r.Err? ==> r.error.DuplicateVarName?
      ensures r.Ok? ==>
                allVarNames == old(allVarNames) + AnonNames(old(NumVars()), |xs| - n - 1)
                && initialDomains == old(initialDomains) + FullRanges(|xs| - n - 1)
      ensures r.Ok? ==>
                js == SplitJoins(xs[n..], old(NumVars()), old(NumVars()) + 1) + [(t1, old(NumVars()), res)]
                && propagators == old(propagators) + PlusRingsOf(js)
      decreases |xs|, 0
    {
      var v;
      ghost var js2;
      v, js2 := SumIntoFresh(xs[n..]);
      js := js2 + [(t1, old(NumVars()), res)];
      if v.Err? { return Err(v.error), js; }
      ghost var p4 := propagators;
      AddPlus(t1, v.value, res);
      PlusRingsOfSnoc(js2, (t1, old(NumVars()), res));
      AppendAssoc(old(propagators), PlusRingsOf(js2), PlusRings(t1, v.value, res));
      r := Ok(());
    }

    /** A fresh anonymous variable and the sum of ys (two or more operands) into it. */
    method SumIntoFresh(ys: seq<nat>) returns (r: Result<nat>, ghost js: seq<Join>)
      requires Valid() && AllBelow(ys, NumVars()) && |ys| >= 2
      modifies this`allVarNames, this`varIndex, this`initialDomains, this`constantCache, this`propagators
      ensures Valid() && NumVars() >= old(NumVars())
      ensures r.Err? ==> r.error.DuplicateVarName?
      ensures r.Ok? ==>
                r.value == old(NumVars()) && r.value < NumVars()
                && allVarNames == old(allVarNames) + AnonNames(old(NumVars()), |ys| - 1)
                && initialDomains == old(initialDomains) + FullRanges(|ys| - 1)
      ensures r.Ok? ==> js == SplitJoins(ys, r.value, r.value + 1) && propagators == old(propagators) + PlusRingsOf(js)
      decreases |ys|, 5
    {
      js := [];
      var v := AddVarAnonNothing();
      if v.Err? { return Err(v.error), js; }
      r, js := SumIntoDeclared(old(allVarNames), old(initialDomains), old(propagators), ys, v.value);
    }

    /** The sum of ys into t, the anonymous variable just declared after (names0, doms0, props0). */
    method SumIntoDeclared(ghost names0: seq<string>, ghost doms0: seq<Dom>, ghost props0: seq<Propagator>,
                           ys: seq<nat>, t: nat)
      returns (r: Result<nat>, ghost js: seq<Join>)
      requires Valid() && AllBelow(ys, |names0|) && |ys| >= 2 && t == |names0|
      requires allVarNames == names0 + AnonNames(t, 1) && initialDomains == doms0 + FullRanges(1)
      requires propagators == props0
      modifies this`allVarNames, this`varIndex, this`initialDomains, this`constantCache, this`propagators
      ensures Valid() && NumVars() >= old(NumVars())
      ensures r.Err? ==> r.error.DuplicateVarName?
      ensures r.Ok? ==>
                r.value == t && r.value < NumVars()
                && allVarNames == names0 + AnonNames(t, |ys| - 1) && initialDomains == doms0 + FullRanges(|ys| - 1)
      ensures r.Ok? ==> js == SplitJoins(ys, t, t + 1) && propagators == props0 + PlusRingsOf(js)
      decreases |ys|, 4
    {
      var sr;
      sr, js := AddSumTree(ys, t);
      if sr.Err? { return Err(sr.error), js; }
      TablesGrowth(names0, old(allVarNames), allVarNames, doms0, old(initialDomains), initialDomains, 1, |ys| - 2);
      r := Ok(t);
    }

    /**
     * propagator_addProduct: the same decomposition as propagator_addSum,
     * with ring-mul in place of plus (ProductEffect). Ring-mul may narrow
     * domains and may resolve a product without appending its rings.
     */
    method AddProduct(xs: seq<nat>, res: nat) returns (r: Result<()>)
      requires Valid() && AllBelow(xs, NumVars()) && res < NumVars()
      modifies this`allVarNames, this`varIndex, this`initialDomains, this`constantCache, this`propagators
      ensures Valid() && NumVars() >= old(NumVars())
      ensures |xs| == 0 ==> r == Err(ProductRequiresVars) && unchanged(this)
      ensures r.Err? && |xs| > 0 ==> r.error.DuplicateVarName?
      ensures |xs| == 1 ==>
                r == Ok(()) && unchanged(this`allVarNames) &&
                var n := EqRule(old(initialDomains[res]), old(initialDomains[xs[0]]));
                initialDomains == old(initialDomains)[res := n.a][xs[0] := n.b]
                && propagators == old(propagators) + if n.keep then [Create("eq", EqStepBare, res, xs[0])] else []
      ensures |xs| == 2 ==> r == Ok(()) && unchanged(this`allVarNames)
      ensures r.Ok? && |xs| >= 2 ==>
                allVarNames == old(allVarNames) + AnonNames(old(NumVars()), |xs| - 2)
                && var e := ProductEffect(old(initialDomains), xs, res);
                   initialDomains == e.0 && propagators == old(propagators) + e.1
    {
      if |xs| == 0 { return Err(ProductRequiresVars); }
      if |xs| == 1 { AddEq(res, xs[0]); return Ok(()); }
      r := AddProductTree(xs, res);
    }

    /**
     * propagator_addProduct for two or more operands: one ring-mul for two,
     * the split in halves for more.
     */
    method AddProductTree(xs: seq<nat>, res: nat) returns (r: Result<()>)
      requires Valid() && AllBelow(xs, NumVars()) && res < NumVars() && |xs| >= 2
      modifies this`allVarNames, this`varIndex, this`initialDomains, this`constantCache, this`propagators
      ensures Valid() && NumVars() >= old(NumVars())
      ensures r.Err? ==> r.error.DuplicateVarName?
      ensures |xs| == 2 ==> r == Ok(()) && unchanged(this`allVarNames)
      ensures r.Ok? ==>
                allVarNames == old(allVarNames) + AnonNames(old(NumVars()), |xs| - 2)
                && var e := ProductEffect(old(initialDomains), xs, res);
                   initialDomains == e.0 && propagators == old(propagators) + e.1
      decreases |xs|, 3
    {
      if |xs| == 2 {
        AddRingMul(xs[0], xs[1], res);
        assert AnonNames(old(NumVars()), 0) == [];
        return Ok(());
      }
      r := ProductSplit(xs, res);
    }

    /** The divide-and-conquer part of propagator_addProduct, for three or more operands. */
    method ProductSplit(xs: seq<nat>, res: nat) returns (r: Result<()>)
      requires Valid() && AllBelow(xs, NumVars()) && res < NumVars() && |xs| >= 3
      modifies this`allVarNames, this`varIndex, this`initialDomains, this`constantCache, this`propagators
      ensures Valid() && NumVars() >= old(NumVars())
      ensures r.Err? ==> r.error.DuplicateVarName?
      ensures r.Ok? ==>
                allVarNames == old(allVarNames) + AnonNames(old(NumVars()), |xs| - 2)
                && var e := ProductEffect(old(initialDomains), xs, res);
                   initialDomains == e.0 && propagators == old(propagators) + e.1
      decreases |xs|, 2
    {
      var n := |xs| / 2;
      SplitCounts(|xs|, n, |xs| - n);
      var first := ProductFirstHalf(xs, n);
      if first.Err? { return Err(first.error); }
      r := ProductSplitRest(old(allVarNames), old(initialDomains), old(propagators), first.value, xs, res);
    }

    /**
     * The second half of a split product and the join of the two halves,
     * once the first half (into t1) was made from the domains doms0 and the
     * propagators props0.
     */
    method ProductSplitRest(ghost names0: seq<string>, ghost doms0: seq<Dom>, ghost props0: seq<Propagator>,
                            t1: nat, xs: seq<nat>, res: nat)
      returns (r: Result<()>)
      requires Valid() && AllBelow(xs, |doms0|) && res < |doms0| && |xs| >= 3
      requires allVarNames == names0 + AnonNames(|names0|, |xs| / 2 - 1)
      requires var h := ProductHalf(doms0, xs[..|xs| / 2]);
               t1 == h.2 && initialDomains == h.0 && propagators == props0 + h.1
      modifies this`allVarNames, this`varIndex, this`initialDomains, this`constantCache, this`propagators
      ensures Valid() && NumVars() >= old(NumVars())
      ensures r.Err? ==> r.error.DuplicateVarName?
      ensures r.Ok? ==>
                allVarNames == names0 + AnonNames(|names0|, |xs| - 2)
                && var e := ProductEffect(doms0, xs, res);
                   initialDomains == e.0 && propagators == props0 + e.1
      decreases |xs|, 1
    {
      var n := |xs| / 2;
      ghost var names1, d1, p1 := allVarNames, initialDomains, propagators;
      r := ProductSecondHalf(t1, xs, n, res);
      if r.Ok? {
        AnonGrowth(names0, names1, allVarNames, n - 1, |xs| - n - 1);
        ProductEffectSplit(doms0, xs, res, props0, d1, t1, p1, propagators, initialDomains);
      }
    }

    /** The first half of a split product: its only operand, or a fresh variable holding its product. */
    method ProductFirstHalf(xs: seq<nat>, n: nat) returns (r: Result<nat>)
      requires Valid() && AllBelow(xs, NumVars()) && 1 <= n < |xs|
      modifies this`allVarNames, this`varIndex, this`initialDomains, this`constantCache, this`propagators
      ensures Valid() && NumVars() >= old(NumVars())
      ensures r.Err? ==> r.error.DuplicateVarName?
      ensures r.Ok? ==> r.value < NumVars() && allVarNames == old(allVarNames) + AnonNames(old(NumVars()), n - 1)
      ensures r.Ok? ==>
                var h := ProductHalf(old(initialDomains), xs[..n]);
                r.value == h.2 && initialDomains == h.0 && propagators == old(propagators) + h.1
      decreases |xs|, 0
    {
      if n > 1 {
        r := ProductIntoFresh(xs[..n]);
      } else {
        r := Ok(xs[0]);
        assert propagators + [] == propagators;
        assert AnonNames(old(NumVars()), 0) == [] && FullRanges(0) == [];
      }
    }

    /** The rest of a split product: the second half into a fresh variable, then t1 times it into res. */
    method ProductSecondHalf(t1: nat, xs: seq<nat>, n: nat, res: nat) returns (r: Result<()>)
      requires Valid() && AllBelow(xs, NumVars()) && res < NumVars() && t1 < NumVars()
      requires 1 <= n < |xs| - 1
      modifies this`allVarNames, this`varIndex, this`initialDomains, this`constantCache, this`propagators
      ensures Valid() && NumVars() >= old(NumVars())
      ensures r.Err? ==> r.error.DuplicateVarName?
      ensures r.Ok? ==> allVarNames == old(allVarNames) + AnonNames(old(NumVars()), |xs| - n - 1)
      ensures r.Ok? ==>
                var d1 := old(initialDomains);
                var e2 := ProductEffect(d1 + [CreateRange(SUB, SUP)], xs[n..], |d1|);
                var j := RingMulEffect(e2.0, t1, |d1|, res);
                initialDomains == j.0 && propagators == old(propagators) + e2.1 + j.1
      decreases |xs|, 0
    {
      var v := ProductIntoFresh(xs[n..]);
      if v.Err? { return Err(v.error); }
      AddRingMul(t1, v.value, res);
      r := Ok(());
    }

    /** A fresh anonymous variable and the product of ys (two or more operands) into it. */
    method ProductIntoFresh(ys: seq<nat>) returns (r: Result<nat>)
      requires Valid() && AllBelow(ys, NumVars()) && |ys| >= 2
      modifies this`allVarNames, this`varIndex, this`initialDomains, this`constantCache, this`propagators
      ensures Valid() && NumVars() >= old(NumVars())
      ensures r.Err? ==> r.error.DuplicateVarName?
      ensures r.Ok? ==>
                r.value == old(NumVars()) && r.value < NumVars()
                && allVarNames == old(allVarNames) + AnonNames(old(NumVars()), |ys| - 1)
      ensures r.Ok? ==>
                var e := ProductEffect(old(initialDomains) + [CreateRange(SUB, SUP)], ys, old(NumVars()));
                initialDomains == e.0 && propagators == old(propagators) + e.1
      decreases |ys|, 5
    {
      var v := AddVarAnonNothing();
      if v.Err? { return Err(v.error); }
      r := ProductIntoDeclared(old(allVarNames), old(initialDomains), old(propagators), ys, v.value);
    }

    /** The product of ys into t, the anonymous variable just declared after (names0, doms0, props0). */
    method ProductIntoDeclared(ghost names0: seq<string>, ghost doms0: seq<Dom>, ghost props0: seq<Propagator>,
                               ys: seq<nat>, t: nat)
      returns (r: Result<nat>)
      requires Valid() && AllBelow(ys, |names0|) && |ys| >= 2 && t == |names0| == |doms0|
      requires allVarNames == names0 + AnonNames(t, 1) && initialDomains == doms0 + [CreateRange(SUB, SUP)]
      requires propagators == props0
      modifies this`allVarNames, this`varIndex, this`initialDomains, this`constantCache, this`propagators
      ensures Valid() && NumVars() >= old(NumVars())
      ensures r.Err? ==> r.error.DuplicateVarName?
      ensures r.Ok? ==> r.value == t && r.value < NumVars() && allVarNames == names0 + AnonNames(t, |ys| - 1)
      ensures r.Ok? ==>
                var e := ProductEffect(doms0 + [CreateRange(SUB, SUP)], ys, t);
                initialDomains == e.0 && propagators == props0 + e.1
      decreases |ys|, 4
    {
      var pr := AddProductTree(ys, t);
      if pr.Err? { return Err(pr.error); }
      AnonGrowth(names0, old(allVarNames), allVarNames, 1, |ys| - 2);
      r := Ok(t);
    }

    // -------------------------------------------------------------------------
    // Compile-time folds (config_solvedAtCompileTime and its helpers)
    // -------------------------------------------------------------------------

    /**
     * _config_solvedAtCompileTimeLtLte. A solved side trims the other and
     * drops the constraint; otherwise both bounds are trimmed and the fold
     * repeats while that changes anything (see LtLteAt).
     */
    method CompileLtLteAt(op: string, l: nat, r: nat) returns (dropped: bool)
      requires Valid() && l < NumVars() && r < NumVars() && (op == "lt" || op == "lte")
      modifies this`initialDomains, this`constrainedAway
      ensures Valid()
      ensures var t := LtLteAt(op, old(initialDomains), l, r);
              initialDomains == t.doms && dropped == t.dropped
      ensures constrainedAway == old(constrainedAway) + if dropped then [l, r] else []
      decreases |initialDomains[l]| + |initialDomains[r]|
    {
      var k := if op == "lt" then 0 else 1;
      var L, R := initialDomains[l], initialDomains[r];
      var v := GetValue(L);
      if v >= 0 {
        initialDomains := initialDomains[r := RemoveLte(R, v - k)];
        constrainedAway := constrainedAway + [l, r];
        return true;
      }
      var w := GetValue(R);
      if w >= 0 {
        initialDomains := initialDomains[l := RemoveGte(L, w + k)];
        constrainedAway := constrainedAway + [l, r];
        return true;
      }
      var L', R' := RemoveGte(L, Max(R) + k), RemoveLte(R, Min(L) - k);
      var d := initialDomains[l := L'][r := R'];
      LtLteAtTrim(op, initialDomains, l, r, L', R', d);
      initialDomains := d;
      if L' != L || R' != R {
        dropped := CompileLtLteAt(op, l, r);
      } else {
        dropped := false;
      }
    }

    /** _config_solvedAtCompileTimeGtGte: the mirror image of CompileLtLteAt (see GtGteAt). */
    method CompileGtGteAt(op: string, l: nat, r: nat) returns (dropped: bool)
      requires Valid() && l < NumVars() && r < NumVars() && (op == "gt" || op == "gte")
      modifies this`initialDomains, this`constrainedAway
      ensures Valid()
      ensures var t := GtGteAt(op, old(initialDomains), l, r);
              initialDomains == t.doms && dropped == t.dropped
      ensures constrainedAway == old(constrainedAway) + if dropped then [l, r] else []
      decreases |initialDomains[l]| + |initialDomains[r]|
    {
      var k := if op == "gt" then 0 else 1;
      var L, R := initialDomains[l], initialDomains[r];
      var v := GetValue(L);
      if v >= 0 {
        initialDomains := initialDomains[r := RemoveGte(R, v + k)];
        constrainedAway := constrainedAway + [l, r];
        return true;
      }
      var w := GetValue(R);
      if w >= 0 {
        initialDomains := initialDomains[l := RemoveLte(L, w - k)];
        constrainedAway := constrainedAway + [l, r];
        return true;
      }
      var L', R' := RemoveLte(L, Min(R) - k), RemoveGte(R, Max(L) + k);
      var d := initialDomains[l := L'][r := R'];
      GtGteAtTrim(op, initialDomains, l, r, L', R', d);
      initialDomains := d;
      if L' != L || R' != R {
        dropped := CompileGtGteAt(op, l, r);
      } else {
        dropped := false;
      }
    }

    /** _config_solvedAtCompileTimeEq */
    method CompileEqAt(l: nat, r: nat) returns (dropped: bool)
      requires Valid() && l < NumVars() && r < NumVars()
      modifies this`initialDomains, this`constrainedAway
      ensures Valid()
      ensures var n := CompileEq(old(initialDomains[l]), old(initialDomains[r]));
              dropped == !n.keep && initialDomains == old(initialDomains)[l := n.a][r := n.b]
      ensures constrainedAway == old(constrainedAway) + if dropped then [l, r] else []
    {
      var A, B := initialDomains[l], initialDomains[r];
      var v := GetValue(A);
      if v == NO_SUCH_VALUE { v := GetValue(B); }
      if v != NO_SUCH_VALUE {
        var d := A * B;
        initialDomains := initialDomains[l := d][r := d];
        constrainedAway := constrainedAway + [l, r];
        return true;
      }
      return false;
    }

    /** _config_solvedAtCompileTimeNeq */
    method CompileNeqAt(l: nat, r: nat) returns (dropped: bool)
      requires Valid() && l < NumVars() && r < NumVars()
      modifies this`initialDomains, this`constrainedAway
      ensures Valid()
      ensures var n := CompileNeq(old(initialDomains[l]), old(initialDomains[r]));
              dropped == !n.keep && initialDomains == old(initialDomains)[l := n.a][r := n.b]
      ensures constrainedAway == old(constrainedAway) + if dropped then [l, r] else []
    {
      var v := GetValue(initialDomains[l]);
      if v != NO_SUCH_VALUE {
        initialDomains := initialDomains[r := RemoveValue(initialDomains[r], v)];
        constrainedAway := constrainedAway + [l, r];
        return true;
      }
      v := GetValue(initialDomains[r]);
      if v != NO_SUCH_VALUE {
        initialDomains := initialDomains[l := RemoveValue(initialDomains[l], v)];
        constrainedAway := constrainedAway + [l, r];
        return true;
      }
      return false;
    }

    /**
     * _config_solvedAtCompileTimeReifier with its Both/Left/Right helpers and
     * _config_eliminateReifier: the fold CompileReifier decides is written to
     * its slot and the slots it names are pushed as constrained away.
     */
    method CompileReifierAt(op: string, l: nat, r: nat, res: nat) returns (result: Result<bool>)
      requires Valid() && l < NumVars() && r < NumVars() && res < NumVars()
      modifies this`initialDomains, this`constrainedAway
      ensures Valid()
      ensures var f := CompileReifier(op, old(initialDomains[l]), old(initialDomains[r]), old(initialDomains[res]));
              if f.Err? then result == Err(f.error) && unchanged(this)
              else if f.value.NoFold? then result == Ok(false) && unchanged(this)
              else
                result == Ok(true)
                && initialDomains == old(initialDomains)[SlotIndex(f.value.slot, l, r, res) := f.value.d]
                && constrainedAway == old(constrainedAway) + SlotIndexes(f.value.away, l, r, res)
    {
      var f := CompileReifier(op, initialDomains[l], initialDomains[r], initialDomains[res]);
      match f {
        case Err(e) => result := Err(e);
        case Ok(NoFold) => result := Ok(false);
        case Ok(Fold(s, d, away)) =>
          initialDomains := initialDomains[SlotIndex(s, l, r, res) := d];
          constrainedAway := constrainedAway + SlotIndexes(away, l, r, res);
          result := Ok(true);
      }
    }

    /** The running domain fold of the sum/product fold's first loop. */
    method FoldOperandDomains(xs: seq<nat>, isSum: bool) returns (d: Dom)
      requires |xs| > 0 && AllBelow(xs, |initialDomains|)
      ensures d == FoldDoms(initialDomains, xs, isSum)
    {
      d := initialDomains[xs[0]];
      var i := 1;
      assert xs[..1] == [xs[0]];
      while i < |xs|
        invariant 1 <= i <= |xs| && d == FoldDoms(initialDomains, xs[..i], isSum)
      {
        assert xs[..i + 1][..i] == xs[..i];
        d := Comb(isSum, d, initialDomains[xs[i]]);
        i := i + 1;
      }
      assert xs[..i] == xs;
    }

    /** The sum/product fold's second loop: the unsolved operands and the combined constant. */
    method SplitConstants(xs: seq<nat>, isSum: bool) returns (us: seq<nat>, total: nat)
      requires AllBelow(xs, |initialDomains|)
      ensures us == Unsolved(initialDomains, xs) && total == ConstTotal(initialDomains, xs, isSum)
    {
      us, total := [], Ident(isSum);
      var i := 0;
      while i < |xs|
        invariant 0 <= i <= |xs|
        invariant us == Unsolved(initialDomains, xs[..i]) && total == ConstTotal(initialDomains, xs[..i], isSum)
      {
        assert xs[..i + 1][..i] == xs[..i];
        var v := GetValue(initialDomains[xs[i]]);
        if v == NO_SUCH_VALUE {
          us := us + [xs[i]];
        } else {
          total := CombVal(isSum, total, v);
        }
        i := i + 1;
      }
      assert xs[..i] == xs;
    }

    /**
     * The first step of _config_solvedAtCompileTimeSumProduct: the result is
     * bounded by the sum (product) of the operand domains.
     */
    method BoundSumProductResult(xs: seq<nat>, res: nat, isSum: bool)
      requires Valid() && AllBelow(xs, NumVars()) && res < NumVars()
      modifies this`initialDomains
      ensures Valid()
      ensures initialDomains == BoundResult(old(initialDomains), xs, res, isSum)
    {
      if |xs| > 0 {
        var bound := FoldOperandDomains(xs, isSum);
        initialDomains := initialDomains[res := bound * initialDomains[res]];
      }
    }

    /**
     * The second step of _config_solvedAtCompileTimeSumProduct, for two or
     * more operands: the solved ones are replaced by one anonymous constant
     * holding their total. The constant is kept when nothing else is left or
     * when it is not the identity (0 for a sum, 1 for a product).
     */
    method ReplaceConstants(xs: seq<nat>, isSum: bool) returns (r: Result<seq<nat>>)
      requires Valid() && |xs| > 1 && AllBelow(xs, NumVars())
      modifies this`allVarNames, this`varIndex, this`initialDomains, this`constantCache
      ensures Valid()
      ensures var us, t := Unsolved(old(initialDomains), xs), ConstTotal(old(initialDomains), xs, isSum);
              var addsConst := us == [] || t != Ident(isSum);
              (r.Err? ==> addsConst && unchanged(this) && r.error.DuplicateVarName?)
              && (r.Ok? && !addsConst ==> r.value == us && unchanged(this))
              && (r.Ok? && addsConst ==>
                    t in constantCache && r.value == us + [constantCache[t]]
                    && (initialDomains == old(initialDomains) || initialDomains == old(initialDomains) + [{t}]))
      ensures var us, t := Unsolved(old(initialDomains), xs), ConstTotal(old(initialDomains), xs, isSum);
              r.Ok? && (us == [] || t != Ident(isSum)) ==>
                (t in old(constantCache) ==> r.value == us + [old(constantCache[t])] && initialDomains == old(initialDomains))
                && (t !in old(constantCache) ==> r.value == us + [old(NumVars())] && initialDomains == old(initialDomains) + [{t}])
      ensures r.Ok? ==> AllBelow(r.value, NumVars())
      ensures NumVars() >= old(NumVars()) && allVarNames[..old(NumVars())] == old(allVarNames)
    {
      var us, total := SplitConstants(xs, isSum);
      if us == [] || total != Ident(isSum) {
        var c := AddVarAnonConstant(total);
        if c.Err? { return Err(c.error); }
        return Ok(us + [c.value]);
      }
      return Ok(us);
    }

    /**
     * The last step of _config_solvedAtCompileTimeSumProduct, on the
     * rewritten operand list: see Settle.
     */
    method SettleSumProduct(ys: seq<nat>, res: nat) returns (dropped: bool)
      requires Valid() && AllBelow(ys, NumVars()) && res < NumVars()
      modifies this`initialDomains, this`constrainedAway
      ensures Valid()
      ensures var s := Settle(old(initialDomains), ys, res);
              dropped == s.dropped && initialDomains == s.doms && constrainedAway == old(constrainedAway) + s.away
    {
      if |ys| == 0 {
        initialDomains := initialDomains[res := initialDomains[res] * CreateValue(0)];
        return true;
      }
      if |ys| == 1 {
        var d := initialDomains[res] * initialDomains[ys[0]];
        initialDomains := initialDomains[res := d][ys[0] := d];
        if IsSolved(d) {
          constrainedAway := constrainedAway + [ys[0], res];
          return true;
        }
      }
      return false;
    }

    /** The first two steps of _config_solvedAtCompileTimeSumProduct: the operand list as rewritten in place. */
    method RewriteSumProduct(xs: seq<nat>, res: nat, isSum: bool) returns (r: Result<seq<nat>>)
      requires Valid() && AllBelow(xs, NumVars()) && res < NumVars()
      modifies this`allVarNames, this`varIndex, this`initialDomains, this`constantCache
      ensures Valid() && Shrunk(old(initialDomains), initialDomains)
      ensures NumVars() >= old(NumVars()) && allVarNames[..old(NumVars())] == old(allVarNames)
      ensures r.Err? ==> r.error.DuplicateVarName?
      ensures r.Ok? ==> AllBelow(r.value, NumVars())
      ensures r.Ok? && |xs| <= 1 ==> r.value == xs
      ensures r.Ok? && |xs| > 1 ==>
                var us := Unsolved(BoundResult(old(initialDomains), xs, res, isSum), xs);
                r.value == us || (|r.value| == |us| + 1 && r.value[..|us|] == us)
      ensures r.Ok? && |xs| > 1 ==>
                var d1 := BoundResult(old(initialDomains), xs, res, isSum);
                var us, t := Unsolved(d1, xs), ConstTotal(d1, xs, isSum);
                (us == [] || t != Ident(isSum) ==> t in constantCache && r.value == us + [constantCache[t]])
                && (!(us == [] || t != Ident(isSum)) ==> r.value == us && initialDomains == d1)
      ensures r.Ok? ==>
                var w := RewriteOperands(old(initialDomains), old(constantCache), xs, res, isSum);
                initialDomains == w.0 && r.value == w.1
      ensures r.Err? ==> |xs| > 1 && initialDomains == BoundResult(old(initialDomains), xs, res, isSum)
    {
      BoundSumProductResult(xs, res, isSum);
      if |xs| <= 1 {
        return Ok(xs);
      }
      r := ReplaceConstants(xs, isSum);
      if r.Ok? {
        assert r.value[..|r.value| - 1] + [r.value[|r.value| - 1]] == r.value;
      }
    }

    /**
     * _config_solvedAtCompileTimeSumProduct: returns whether the constraint
     * is dropped and the operand list as rewritten in place.
     */
    method CompileSumProductAt(xs: seq<nat>, res: nat, isSum: bool) returns (r: Result<(bool, seq<nat>)>)
      requires Valid() && AllBelow(xs, NumVars()) && res < NumVars()
      modifies this`allVarNames, this`varIndex, this`initialDomains, this`constantCache, this`constrainedAway
      ensures Valid() && Shrunk(old(initialDomains), initialDomains)
      ensures NumVars() >= old(NumVars()) && allVarNames[..old(NumVars())] == old(allVarNames)
      ensures r.Err? ==> r.error.DuplicateVarName?
      ensures r.Ok? ==> AllBelow(r.value.1, NumVars())
      ensures r.Ok? && |xs| <= 1 ==> r.value.1 == xs
      ensures r.Ok? && |xs| > 1 ==>
                var us := Unsolved(BoundResult(old(initialDomains), xs, res, isSum), xs);
                r.value.1 == us || (|r.value.1| == |us| + 1 && r.value.1[..|us|] == us)
      ensures r.Ok? ==> constrainedAway == old(constrainedAway) + (if r.value.0 && |r.value.1| == 1 then [r.value.1[0], res] else [])
      ensures r.Ok? ==> (r.value.0 <==> r.value.1 == [] || (|r.value.1| == 1 && IsSolved(initialDomains[res])))
      ensures r.Ok? && |r.value.1| == 1 ==> initialDomains[res] == initialDomains[r.value.1[0]]
      ensures r.Ok? && r.value.1 == [] ==> initialDomains[res] <= {0}
      ensures r.Ok? ==>
                var w := RewriteOperands(old(initialDomains), old(constantCache), xs, res, isSum);
                var s := Settle(w.0, w.1, res);
                r.value == (s.dropped, w.1) && initialDomains == s.doms && constrainedAway == old(constrainedAway) + s.away
      ensures r.Ok? && |xs| > 0 ==> initialDomains[res] <= FoldDoms(old(initialDomains), xs, isSum)
      ensures r.Err? ==> constrainedAway == old(constrainedAway) && initialDomains == BoundResult(old(initialDomains), xs, res, isSum)
    {
      SumProductResultBound(initialDomains, constantCache, xs, res, isSum);
      var ys := RewriteSumProduct(xs, res, isSum);
      if ys.Err? { return Err(ys.error); }
      ghost var d1 := initialDomains;
      var dropped := SettleSumProduct(ys.value, res);
      ShrunkTrans(old(initialDomains), d1, initialDomains);
      r := Ok((dropped, ys.value));
    }

    /**
     * config_solvedAtCompileTime: dispatch on the constraint name; a
     * constraint without a fold is never dropped. Returns whether it is
     * dropped and the (possibly rewritten) index list to record.
     */
    method SolvedAtCompileTime(name: string, xs: seq<nat>, param: Param) returns (r: Result<(bool, seq<nat>)>)
      requires Valid() && AllBelow(xs, NumVars())
      requires BinaryOp(name) && name != "neq" && name != "eq" ==> |xs| >= 2
      requires name == "eq" || name == "neq" ==> |xs| >= 2
      requires name == "reifier" ==> |xs| == 3 && param.Op?
      requires name == "sum" || name == "product" ==> param.ResultIndex? && param.index < NumVars()
      modifies this`allVarNames, this`varIndex, this`initialDomains, this`constantCache, this`constrainedAway
      ensures Valid() && Shrunk(old(initialDomains), initialDomains)
      ensures NumVars() >= old(NumVars()) && allVarNames[..old(NumVars())] == old(allVarNames)
      ensures r.Ok? ==> AllBelow(r.value.1, NumVars())
      ensures r.Ok? && name != "sum" && name != "product" ==> r.value.1 == xs
      ensures r.Err? ==> name in {"reifier", "sum", "product"}
      ensures if name == "lt" || name == "lte" then
                var t := LtLteAt(name, old(initialDomains), xs[0], xs[1]);
                r == Ok((t.dropped, xs)) && initialDomains == t.doms
                && constrainedAway == old(constrainedAway) + (if t.dropped then [xs[0], xs[1]] else [])
              else if name == "gt" || name == "gte" then
                var t := GtGteAt(name, old(initialDomains), xs[0], xs[1]);
                r == Ok((t.dropped, xs)) && initialDomains == t.doms
                && constrainedAway == old(constrainedAway) + (if t.dropped then [xs[0], xs[1]] else [])
              else if name == "eq" || name == "neq" then
                var n := if name == "eq" then CompileEq(old(initialDomains[xs[0]]), old(initialDomains[xs[1]]))
                         else CompileNeq(old(initialDomains[xs[0]]), old(initialDomains[xs[1]]));
                r == Ok((!n.keep, xs)) && initialDomains == old(initialDomains)[xs[0] := n.a][xs[1] := n.b]
                && constrainedAway == old(constrainedAway) + (if n.keep then [] else [xs[0], xs[1]])
              else if name == "reifier" then
                var f := CompileReifier(param.op, old(initialDomains[xs[0]]), old(initialDomains[xs[1]]), old(initialDomains[xs[2]]));
                if f.Err? then r == Err(f.error) && unchanged(this)
                else if f.value.NoFold? then r == Ok((false, xs)) && unchanged(this)
                else
                  r == Ok((true, xs))
                  && initialDomains == old(initialDomains)[SlotIndex(f.value.slot, xs[0], xs[1], xs[2]) := f.value.d]
                  && constrainedAway == old(constrainedAway) + SlotIndexes(f.value.away, xs[0], xs[1], xs[2])
              else if name == "sum" || name == "product" then
                if r.Ok? then
                  var w := RewriteOperands(old(initialDomains), old(constantCache), xs, param.index, name == "sum");
                  var s := Settle(w.0, w.1, param.index);
                  r.value == (s.dropped, w.1) && initialDomains == s.doms && constrainedAway == old(constrainedAway) + s.away
                else
                  r.error.DuplicateVarName? && constrainedAway == old(constrainedAway)
                  && initialDomains == BoundResult(old(initialDomains), xs, param.index, name == "sum")
              else r == Ok((false, xs)) && unchanged(this)
    {
      if name == "lte" || name == "lt" {
        var d := CompileLtLteAt(name, xs[0], xs[1]);
        return Ok((d, xs));
      } else if name == "gte" || name == "gt" {
        var d := CompileGtGteAt(name, xs[0], xs[1]);
        return Ok((d, xs));
      } else if name == "eq" {
        var d := CompileEqAt(xs[0], xs[1]);
        return Ok((d, xs));
      } else if name == "neq" {
        var d := CompileNeqAt(xs[0], xs[1]);
        return Ok((d, xs));
      } else if name == "reifier" {
        var d := CompileReifierAt(param.op, xs[0], xs[1], xs[2]);
        if d.Err? { return Err(d.error); }
        return Ok((d.value, xs));
      } else if name == "sum" || name == "product" {
        r := CompileSumProductAt(xs, param.index, name == "sum");
        return r;
      }
      return Ok((false, xs));
    }

    /**
     * The result variable of config_addConstraint: absent means a fresh
     * anonymous variable (boolean for a reifier, unconstrained otherwise), a
     * literal means its cached constant, a name must be declared.
     */
    method ResolveResult(given: Operand, isBool: bool) returns (r: Result<nat>)
      requires Valid()
      modifies this`allVarNames, this`varIndex, this`initialDomains, this`constantCache
      ensures Valid() && Shrunk(old(initialDomains), initialDomains)
      ensures NumVars() >= old(NumVars()) && allVarNames[..old(NumVars())] == old(allVarNames)
      ensures r.Ok? ==> r.value < NumVars()
      ensures r.Err? ==> unchanged(this)
      ensures r.Err? ==> if given.Name? then r.error == UndeclaredVar(given.name) else r.error == DuplicateVarName(AnonName(old(NumVars())))
      ensures given.Name? ==> unchanged(this) && (r.Ok? <==> given.name in varIndex)
      ensures given.Name? && r.Ok? ==> allVarNames[r.value] == given.name
      ensures given.Num? && r.Ok? ==> given.value in constantCache && r.value == constantCache[given.value]
      ensures given.Absent? && r.Ok? ==>
                r.value == old(NumVars()) && |initialDomains| == old(|initialDomains|) + 1
                && initialDomains[r.value] == if isBool then CreateRange(0, 1) else CreateRange(SUB, SUP)
    {
      match given {
        case Absent =>
          if isBool {
            r := AddVarAnonRange(0, 1);
          } else {
            r := AddVarAnonNothing();
          }
        case Num(v) =>
          r := AddVarAnonConstant(v);
        case Name(s) =>
          var i := Lookup(s);
          if i < 0 { return Err(UndeclaredVar(s)); }
          r := Ok(i);
      }
    }

    /**
     * The switch of config_addConstraint: an unknown name is refused; a
     * constraint with a result gets its result variable (a fresh boolean for
     * a reifier, a fresh unconstrained one for the others, a cached constant
     * for a literal, the named variable otherwise), which a sum or product
     * keeps as its parameter and the others put in their third slot. Returns
     * the result name, the operands and the parameter to record.
     */
    method PrepareResult(name: string, varNames: seq<Operand>, extra: Extra)
      returns (r: Result<(Option<string>, seq<Operand>, Param)>)
      requires Valid()
      requires ResultOp(name) ==> |varNames| == 3
      requires name == "reifier" ==> extra.OpName?
      requires name == "sum" || name == "product" ==> extra.ResultVar?
      modifies this`allVarNames, this`varIndex, this`initialDomains, this`constantCache
      ensures Valid() && Shrunk(old(initialDomains), initialDomains)
      ensures NumVars() >= old(NumVars()) && allVarNames[..old(NumVars())] == old(allVarNames)
      ensures !KnownConstraint(name) ==> r == Err(UnknownPropagator(name)) && unchanged(this)
      ensures r.Err? ==> r.error.UnknownPropagator? || r.error.UndeclaredVar? || r.error.DuplicateVarName?
      ensures r.Ok? ==> KnownConstraint(name) && (r.value.0.Some? <==> HasResult(name))
      ensures r.Ok? && r.value.0.Some? ==> r.value.0.value in varIndex
      ensures r.Ok? && ResultOp(name) ==> r.value.1 == varNames[2 := Name(r.value.0.value)]
      ensures r.Ok? && !ResultOp(name) ==> r.value.1 == varNames
      ensures r.Ok? && (name == "sum" || name == "product") ==>
                r.value.2.ResultIndex? && r.value.2.index < NumVars() && allVarNames[r.value.2.index] == r.value.0.value
      ensures r.Ok? && !(name == "sum" || name == "product") ==> r.value.2 == if name == "reifier" then Op(extra.op) else NoParam
      ensures r.Ok? && HasResult(name) ==>
                var given := if name == "sum" || name == "product" then extra.result else varNames[2];
                given.Name? ==> r.value.0.value == given.name && unchanged(this)
    {
      if !KnownConstraint(name) {
        return Err(UnknownPropagator(name));
      }
      if !HasResult(name) {
        return Ok((None, varNames, NoParam));
      }
      var sumOrProduct := name == "sum" || name == "product";
      var given := if sumOrProduct then extra.result else varNames[2];
      var a := ResolveResult(given, name == "reifier");
      if a.Err? { return Err(a.error); }
      var index := a.value;
      var resultName := allVarNames[index];
      var param := if name == "reifier" then Op(extra.op) else if sumOrProduct then ResultIndex(index) else NoParam;
      var names := if sumOrProduct then varNames else varNames[2 := Name(resultName)];
      return Ok((Some(resultName), names, param));
    }

    /**
     * config_compileConstants: every literal operand becomes the name of the
     * anonymous constant cached for its value; names and absent operands
     * stay as they are.
     */
    method CompileConstants(varNames: seq<Operand>) returns (r: Result<seq<Operand>>)
      requires Valid()
      modifies this`allVarNames, this`varIndex, this`initialDomains, this`constantCache
      ensures Valid() && Shrunk(old(initialDomains), initialDomains)
      ensures NumVars() >= old(NumVars()) && allVarNames[..old(NumVars())] == old(allVarNames)
      ensures old(constantCache).Keys <= constantCache.Keys
      ensures r.Err? ==> r.error.DuplicateVarName?
      ensures r.Ok? ==> |r.value| == |varNames|
      ensures r.Ok? ==> forall i :: 0 <= i < |varNames| && !varNames[i].Num? ==> r.value[i] == varNames[i]
      ensures r.Ok? ==> forall i :: 0 <= i < |varNames| && varNames[i].Num? ==>
                varNames[i].value in constantCache && r.value[i] == Name(allVarNames[constantCache[varNames[i].value]])
    {
      var names := varNames;
      var i := 0;
      while i < |varNames|
        invariant 0 <= i <= |varNames| && |names| == |varNames|
        invariant Valid() && Shrunk(old(initialDomains), initialDomains)
        invariant NumVars() >= old(NumVars()) && allVarNames[..old(NumVars())] == old(allVarNames)
        invariant old(constantCache).Keys <= constantCache.Keys
        invariant forall k :: 0 <= k < |varNames| && (k >= i || !varNames[k].Num?) ==> names[k] == varNames[k]
        invariant forall k :: 0 <= k < i && varNames[k].Num? ==>
                    varNames[k].value in constantCache && names[k] == Name(allVarNames[constantCache[varNames[k].value]])
      {
        if varNames[i].Num? {
          ghost var n0, c0 := allVarNames, constantCache;
          var a := AddVarAnonConstant(varNames[i].value);
          if a.Err? { return Err(a.error); }
          CachedNamesStable(varNames, i, names, n0, c0, allVarNames, constantCache, varNames[i].value, a.value);
          names := names[i := Name(allVarNames[a.value])];
        }
        i := i + 1;
      }
      return Ok(names);
    }

    /** config_varNamesToIndexes: the index of each (declared) operand name. */
    method VarNamesToIndexes(names: seq<Operand>) returns (idxs: seq<nat>)
      requires NamesValid() && AllDeclared(names, varIndex)
      ensures |idxs| == |names| && AllBelow(idxs, NumVars())
      ensures forall i :: 0 <= i < |names| ==> idxs[i] == varIndex[names[i].name] && allVarNames[idxs[i]] == names[i].name
    {
      idxs := [];
      var i := 0;
      while i < |names|
        invariant 0 <= i <= |names| && |idxs| == i && AllBelow(idxs, NumVars())
        invariant forall k :: 0 <= k < i ==> idxs[k] == varIndex[names[k].name] && allVarNames[idxs[k]] == names[k].name
      {
        var j := Lookup(names[i].name);
        idxs := idxs + [j];
        i := i + 1;
      }
    }

    /**
     * The tail of config_addConstraint once the constraint is new: fold it at
     * compile time if possible, and record it only if it was not dropped.
     * Returns whether it was dropped and the operand indexes it ends with.
     */
    method RecordConstraint(name: string, xs: seq<nat>, param: Param) returns (r: Result<(bool, seq<nat>)>)
      requires Valid() && AllBelow(xs, NumVars()) && KnownConstraint(name)
      requires ResultOp(name) ==> |xs| == 3
      requires BinaryOp(name) ==> |xs| >= 2
      requires name == "reifier" ==> param.Op?
      requires (name == "sum" || name == "product" ==> param.ResultIndex?) && (param.ResultIndex? ==> param.index < NumVars())
      modifies this`allVarNames, this`varIndex, this`initialDomains, this`constantCache, this`allConstraints, this`constrainedAway
      ensures Valid() && Shrunk(old(initialDomains), initialDomains)
      ensures NumVars() >= old(NumVars()) && allVarNames[..old(NumVars())] == old(allVarNames)
      ensures r.Err? ==> allConstraints == old(allConstraints)
      ensures r.Ok? ==> allConstraints == old(allConstraints) + if r.value.0 then [] else [Constraint(name, r.value.1, param)]
      ensures r.Ok? && name != "sum" && name != "product" ==> r.value.1 == xs
    {
      r := SolvedAtCompileTime(name, xs, param);
      if r.Ok? && !r.value.0 {
        AppendConstraint(Constraint(name, r.value.1, param));
      }
    }

    /** config.allConstraints.push(constraint) */
    method AppendConstraint(c: Constraint)
      requires Valid() && WellFormed(c, NumVars())
      modifies this`allConstraints
      ensures Valid() && allConstraints == old(allConstraints) + [c]
    {
      allConstraints := allConstraints + [c];
    }

    /**
     * config_dedupeConstraint. A new key is recorded with the result name (or
     * `true`) and the constraint is kept. A key seen without a result drops
     * the constraint, and refuses a result. A key seen with a result refuses
     * a missing one, and otherwise equates the new result with the recorded
     * one through an `eq` constraint before dropping it.
     */
    method Dedupe(key: string, result: Option<string>) returns (r: Result<bool>)
      requires Valid() && (result.Some? ==> result.value in varIndex)
      modifies this`allVarNames, this`varIndex, this`initialDomains, this`constantCache, this`constraintHash,
               this`allConstraints, this`constrainedAway
      ensures Valid() && Shrunk(old(initialDomains), initialDomains)
      ensures NumVars() >= old(NumVars()) && allVarNames[..old(NumVars())] == old(allVarNames)
      ensures old(varIndex).Keys <= varIndex.Keys && old(constraintHash).Keys <= constraintHash.Keys
      ensures Appended(old(allConstraints), allConstraints)
      ensures key !in old(constraintHash) ==>
                r == Ok(false) && constraintHash == old(constraintHash)[key := EntryFor(result)]
                && unchanged(this`allVarNames, this`initialDomains, this`allConstraints)
      ensures key in old(constraintHash) && old(constraintHash[key]).Seen? ==>
                unchanged(this) && r == if result.Some? then Err(DuplicateResultlessWithResult) else Ok(true)
      ensures key in old(constraintHash) && old(constraintHash[key]).SeenWithResult? && (result.None? || result.value == "") ==>
                unchanged(this) && r == Err(DuplicateResultWithoutResult)
      ensures key in old(constraintHash) && r.Ok? ==> r.value
      ensures key in old(constraintHash) && old(constraintHash[key]).SeenWithResult? && result.Some? && result.value != ""
              && r.Ok? ==>
                ConstraintKey("eq", [result.value, old(constraintHash[key]).result]) in constraintHash
      decreases if result.Some? then 1 else 0, 0
    {
      if key !in constraintHash {
        constraintHash := constraintHash[key := EntryFor(result)];
        return Ok(false);
      }
      match constraintHash[key] {
        case Seen =>
          if result.Some? { return Err(DuplicateResultlessWithResult); }
          return Ok(true);
        case SeenWithResult(earlier) =>
          if result.None? || result.value == "" { return Err(DuplicateResultWithoutResult); }
          var e := AddConstraint("eq", [Name(result.value), Name(earlier)], NoExtra);
          if e.Err? { return Err(e.error); }
          assert OperandNames([Name(result.value), Name(earlier)]) == [result.value, earlier];
          return Ok(true);
      }
    }

    /**
     * config_addConstraint: returns the name of the result variable for the
     * constraints that have one. The constraint is recorded only when it is
     * new (by its key) and not folded away at compile time.
     */
    method AddConstraint(name: string, varNames: seq<Operand>, extra: Extra) returns (r: Result<Option<string>>)
      requires Valid()
      requires ResultOp(name) ==> |varNames| == 3
      requires BinaryOp(name) ==> |varNames| >= 2
      requires name == "reifier" ==> extra.OpName?
      requires name == "sum" || name == "product" ==> extra.ResultVar?
      requires forall i :: 0 <= i < |varNames| && !(ResultOp(name) && i == 2) ==>
                 varNames[i].Num? || (varNames[i].Name? && varNames[i].name in varIndex)
      modifies this`allVarNames, this`varIndex, this`initialDomains, this`constantCache, this`constraintHash,
               this`allConstraints, this`constrainedAway
      ensures Valid() && Shrunk(old(initialDomains), initialDomains)
      ensures NumVars() >= old(NumVars()) && allVarNames[..old(NumVars())] == old(allVarNames)
      ensures old(varIndex).Keys <= varIndex.Keys && old(constraintHash).Keys <= constraintHash.Keys
      ensures Appended(old(allConstraints), allConstraints)
      ensures !KnownConstraint(name) ==> r == Err(UnknownPropagator(name)) && unchanged(this)
      ensures r.Ok? ==> (r.value.Some? <==> HasResult(name)) && (r.value.Some? ==> r.value.value in varIndex)
      ensures r.Ok? && !ResultOp(name) && (forall i :: 0 <= i < |varNames| ==> varNames[i].Name?) ==>
                ConstraintKey(name, OperandNames(varNames)) in constraintHash
      decreases if HasResult(name) then 1 else 0, 3
    {
      var p := PrepareResult(name, varNames, extra);
      if p.Err? { return Err(p.error); }
      var keyOp := if name == "reifier" then extra.op else name;
      r := CompileAndAdd(name, keyOp, p.value.1, p.value.0, p.value.2);
    }

    /** config_addConstraint after the result variable is settled: literals become constants, then AddCompiled. */
    method CompileAndAdd(name: string, keyOp: string, ops: seq<Operand>, result: Option<string>, param: Param)
      returns (r: Result<Option<string>>)
      requires Valid() && KnownConstraint(name)
      requires forall i :: 0 <= i < |ops| ==> ops[i].Num? || (ops[i].Name? && ops[i].name in varIndex)
      requires result.Some? <==> HasResult(name)
      requires result.Some? ==> result.value in varIndex
      requires ResultOp(name) ==> |ops| == 3
      requires BinaryOp(name) ==> |ops| >= 2
      requires name == "reifier" ==> param.Op?
      requires (name == "sum" || name == "product" ==> param.ResultIndex?) && (param.ResultIndex? ==> param.index < NumVars())
      modifies this`allVarNames, this`varIndex, this`initialDomains, this`constantCache, this`constraintHash,
               this`allConstraints, this`constrainedAway
      ensures Valid() && Shrunk(old(initialDomains), initialDomains)
      ensures NumVars() >= old(NumVars()) && allVarNames[..old(NumVars())] == old(allVarNames)
      ensures old(varIndex).Keys <= varIndex.Keys && old(constraintHash).Keys <= constraintHash.Keys
      ensures Appended(old(allConstraints), allConstraints)
      ensures r.Ok? ==> r.value == result
      ensures r.Ok? && (forall i :: 0 <= i < |ops| ==> ops[i].Name?) ==> ConstraintKey(keyOp, OperandNames(ops)) in constraintHash
      decreases if HasResult(name) then 1 else 0, 2
    {
      ghost var n0, v0 := allVarNames, varIndex;
      var c := CompileConstants(ops);
      KeysKept(n0, v0, allVarNames, varIndex);
      if c.Err? { return Err(c.error); }
      CompiledDeclared(ops, c.value, allVarNames, varIndex, constantCache);
      r := AddCompiled(name, keyOp, c.value, result, param);
    }

    /**
     * The rest of config_addConstraint, on operands that are all declared
     * names: deduplicate by key, then fold or record the constraint.
     */
    method AddCompiled(name: string, keyOp: string, ops: seq<Operand>, result: Option<string>, param: Param)
      returns (r: Result<Option<string>>)
      requires Valid() && KnownConstraint(name) && AllDeclared(ops, varIndex)
      requires result.Some? <==> HasResult(name)
      requires result.Some? ==> result.value in varIndex
      requires ResultOp(name) ==> |ops| == 3
      requires BinaryOp(name) ==> |ops| >= 2
      requires name == "reifier" ==> param.Op?
      requires (name == "sum" || name == "product" ==> param.ResultIndex?) && (param.ResultIndex? ==> param.index < NumVars())
      modifies this`allVarNames, this`varIndex, this`initialDomains, this`constantCache, this`constraintHash,
               this`allConstraints, this`constrainedAway
      ensures Valid() && Shrunk(old(initialDomains), initialDomains)
      ensures NumVars() >= old(NumVars()) && allVarNames[..old(NumVars())] == old(allVarNames)
      ensures old(varIndex).Keys <= varIndex.Keys && old(constraintHash).Keys <= constraintHash.Keys
      ensures Appended(old(allConstraints), allConstraints)
      ensures r.Ok? ==> r.value == result
      ensures var key := ConstraintKey(keyOp, OperandNames(ops));
              key in old(constraintHash) && result.None? && r.Ok? ==> unchanged(this)
      ensures var key := ConstraintKey(keyOp, OperandNames(ops));
              key !in old(constraintHash) ==>
                constraintHash == old(constraintHash)[key := EntryFor(result)]
                && (r.Ok? && |allConstraints| > |old(allConstraints)| ==>
                      allConstraints[|old(allConstraints)|].name == name && allConstraints[|old(allConstraints)|].param == param)
      ensures ConstraintKey(keyOp, OperandNames(ops)) in constraintHash
      decreases if HasResult(name) then 1 else 0, 1
    {
      var key := ConstraintKey(keyOp, OperandNames(ops));
      var seen := Dedupe(key, result);
      if seen.Err? { return Err(seen.error); }
      if seen.value { return Ok(result); }
      var rec := IndexAndRecord(name, ops, param);
      if rec.Err? { return Err(rec.error); }
      return Ok(result);
    }

    /** The operands of a new constraint become indexes, and the constraint is folded or recorded. */
    method IndexAndRecord(name: string, ops: seq<Operand>, param: Param) returns (r: Result<bool>)
      requires Valid() && KnownConstraint(name) && AllDeclared(ops, varIndex)
      requires ResultOp(name) ==> |ops| == 3
      requires BinaryOp(name) ==> |ops| >= 2
      requires name == "reifier" ==> param.Op?
      requires (name == "sum" || name == "product" ==> param.ResultIndex?) && (param.ResultIndex? ==> param.index < NumVars())
      modifies this`allVarNames, this`varIndex, this`initialDomains, this`constantCache, this`allConstraints, this`constrainedAway
      ensures Valid() && Shrunk(old(initialDomains), initialDomains)
      ensures NumVars() >= old(NumVars()) && allVarNames[..old(NumVars())] == old(allVarNames)
      ensures old(varIndex).Keys <= varIndex.Keys
      ensures Appended(old(allConstraints), allConstraints)
      ensures |allConstraints| > |old(allConstraints)| ==>
                allConstraints[|old(allConstraints)|].name == name && allConstraints[|old(allConstraints)|].param == param
      ensures r.Ok? ==> (r.value <==> |allConstraints| == |old(allConstraints)|)
      ensures r.Err? ==> allConstraints == old(allConstraints)
    {
      var idxs := VarNamesToIndexes(ops);
      ghost var n0, v0 := allVarNames, varIndex;
      var rec := RecordConstraint(name, idxs, param);
      KeysKept(n0, v0, allVarNames, varIndex);
      if rec.Err? { return Err(rec.error); }
      return Ok(rec.value.0);
    }

    // -------------------------------------------------------------------------
    // Search preparation (config_init and what it calls)
    // -------------------------------------------------------------------------

    /**
     * config_generatePropagator: the builder for a recorded constraint, by
     * name; a name the generator does not know is refused. Only sum and
     * product declare variables.
     */
    method GeneratePropagator(c: Constraint) returns (r: Result<()>)
      requires Valid() && WellFormed(c, NumVars())
      modifies this`allVarNames, this`varIndex, this`initialDomains, this`constantCache, this`propagators
      ensures Valid() && NumVars() >= old(NumVars())
      ensures !KnownConstraint(c.name) ==> r == Err(UnexpectedName(c.name)) && unchanged(this)
      ensures r.Err? ==> r.error in {UnexpectedName(c.name), UnknownReifiedOp, SumRequiresVars, ProductRequiresVars}
                         || r.error.DuplicateVarName?
      ensures r.Ok? ==> allVarNames[..old(NumVars())] == old(allVarNames)
                        && |old(propagators)| <= |propagators| && propagators[..|old(propagators)|] == old(propagators)
      ensures c.name != "sum" && c.name != "product" ==> unchanged(this`allVarNames)
      ensures BinaryOp(c.name) ==>
                r == Ok(()) &&
                var e := BinEffect(BinKindOf(c.name), old(initialDomains), c.varIndexes[0], c.varIndexes[1]);
                initialDomains == e.0 && propagators == old(propagators) + e.1
      ensures c.name == "distinct" ==>
                r == Ok(()) &&
                var e := NeqFold(old(initialDomains), Pairs(c.varIndexes));
                initialDomains == e.0 && propagators == old(propagators) + e.1
      ensures ResultOp(c.name) && c.name != "reifier" ==>
                r == Ok(()) && |initialDomains| == old(|initialDomains|) && Shrunk(old(initialDomains), initialDomains)
      ensures ResultOp(c.name) && c.name != "reifier" ==>
                var e := ArithEffect(c.name, old(initialDomains), c.varIndexes[0], c.varIndexes[1], c.varIndexes[2]);
                initialDomains == e.0 && propagators == old(propagators) + e.1
      ensures c.name == "reifier" ==>
                var xs := c.varIndexes;
                var p := ReifiedPlan(c.param.op, old(initialDomains[xs[0]]), old(initialDomains[xs[1]]), old(initialDomains[xs[2]]));
                if p.Fail? then r == Err(UnknownReifiedOp) && unchanged(this)
                else
                  var e := PlanEffect(p, old(initialDomains), xs[0], xs[1], xs[2]);
                  r == Ok(()) && initialDomains == e.0 && propagators == old(propagators) + e.1
      ensures (c.name == "sum" || c.name == "product") && |c.varIndexes| == 0 ==>
                r == Err(if c.name == "sum" then SumRequiresVars else ProductRequiresVars) && unchanged(this)
      ensures (c.name == "sum" || c.name == "product") && |c.varIndexes| == 1 ==>
                var x, res := c.varIndexes[0], c.param.index;
                var n := EqRule(old(initialDomains[res]), old(initialDomains[x]));
                r == Ok(()) && initialDomains == old(initialDomains)[res := n.a][x := n.b]
                && propagators == old(propagators) + if n.keep then [Create("eq", EqStepBare, res, x)] else []
      ensures c.name == "sum" && r.Ok? && |c.varIndexes| >= 2 ==>
                allVarNames == old(allVarNames) + AnonNames(old(NumVars()), |c.varIndexes| - 2)
                && initialDomains == old(initialDomains) + FullRanges(|c.varIndexes| - 2)
                && propagators == old(propagators) + PlusRingsOf(SplitJoins(c.varIndexes, c.param.index, old(NumVars())))
      ensures c.name == "product" && r.Ok? && |c.varIndexes| >= 2 ==>
                allVarNames == old(allVarNames) + AnonNames(old(NumVars()), |c.varIndexes| - 2)
                && var e := ProductEffect(old(initialDomains), c.varIndexes, c.param.index);
                   initialDomains == e.0 && propagators == old(propagators) + e.1
    {
      var xs := c.varIndexes;
      if BinaryOp(c.name) {
        GenerateComparison(c.name, xs[0], xs[1]);
        return Ok(());
      } else if c.name == "distinct" {
        AddDistinct(xs);
        return Ok(());
      } else if HasResult(c.name) {
        r := GenerateWithResult(c);
      } else {
        return Err(UnexpectedName(c.name));
      }
    }

    /** generatePropagator for the constraints with a result variable: arithmetic, reifiers, sums and products. */
    method GenerateWithResult(c: Constraint) returns (r: Result<()>)
      requires Valid() && WellFormed(c, NumVars()) && HasResult(c.name)
      modifies this`allVarNames, this`varIndex, this`initialDomains, this`constantCache, this`propagators
      ensures Valid() && NumVars() >= old(NumVars())
      ensures r.Err? ==> r.error in {UnknownReifiedOp, SumRequiresVars, ProductRequiresVars} || r.error.DuplicateVarName?
      ensures r.Ok? ==> allVarNames[..old(NumVars())] == old(allVarNames)
                        && |old(propagators)| <= |propagators| && propagators[..|old(propagators)|] == old(propagators)
      ensures c.name != "sum" && c.name != "product" ==> unchanged(this`allVarNames)
      ensures ResultOp(c.name) && c.name != "reifier" ==>
                r == Ok(()) && |initialDomains| == old(|initialDomains|) && Shrunk(old(initialDomains), initialDomains)
      ensures ResultOp(c.name) && c.name != "reifier" ==>
                var e := ArithEffect(c.name, old(initialDomains), c.varIndexes[0], c.varIndexes[1], c.varIndexes[2]);
                initialDomains == e.0 && propagators == old(propagators) + e.1
      ensures c.name == "reifier" ==>
                var xs := c.varIndexes;
                var p := ReifiedPlan(c.param.op, old(initialDomains[xs[0]]), old(initialDomains[xs[1]]), old(initialDomains[xs[2]]));
                if p.Fail? then r == Err(UnknownReifiedOp) && unchanged(this)
                else
                  var e := PlanEffect(p, old(initialDomains), xs[0], xs[1], xs[2]);
                  r == Ok(()) && initialDomains == e.0 && propagators == old(propagators) + e.1
      ensures (c.name == "sum" || c.name == "product") && |c.varIndexes| == 0 ==>
                r == Err(if c.name == "sum" then SumRequiresVars else ProductRequiresVars) && unchanged(this)
      ensures (c.name == "sum" || c.name == "product") && |c.varIndexes| == 1 ==>
                var x, res := c.varIndexes[0], c.param.index;
                var n := EqRule(old(initialDomains[res]), old(initialDomains[x]));
                r == Ok(()) && initialDomains == old(initialDomains)[res := n.a][x := n.b]
                && propagators == old(propagators) + if n.keep then [Create("eq", EqStepBare, res, x)] else []
      ensures c.name == "sum" && r.Ok? && |c.varIndexes| >= 2 ==>
                allVarNames == old(allVarNames) + AnonNames(old(NumVars()), |c.varIndexes| - 2)
                && initialDomains == old(initialDomains) + FullRanges(|c.varIndexes| - 2)
                && propagators == old(propagators) + PlusRingsOf(SplitJoins(c.varIndexes, c.param.index, old(NumVars())))
      ensures c.name == "product" && r.Ok? && |c.varIndexes| >= 2 ==>
                allVarNames == old(allVarNames) + AnonNames(old(NumVars()), |c.varIndexes| - 2)
                && var e := ProductEffect(old(initialDomains), c.varIndexes, c.param.index);
                   initialDomains == e.0 && propagators == old(propagators) + e.1
    {
      var xs := c.varIndexes;
      if ResultOp(c.name) && c.name != "reifier" {
        GenerateArithmetic(c.name, xs[0], xs[1], xs[2]);
        return Ok(());
      } else if c.name == "sum" || c.name == "product" {
        r := GenerateSumProduct(c.name == "sum", xs, c.param.index);
      } else {
        r := AddReified(c.param.op, xs[0], xs[1], xs[2]);
      }
    }

    /** The sum and product cases of config_generatePropagator: variables and rings are only appended. */
    method GenerateSumProduct(isSum: bool, xs: seq<nat>, res: nat) returns (r: Result<()>)
      requires Valid() && AllBelow(xs, NumVars()) && res < NumVars()
      modifies this`allVarNames, this`varIndex, this`initialDomains, this`constantCache, this`propagators
      ensures Valid() && NumVars() >= old(NumVars())
      ensures |xs| == 0 ==> r == Err(if isSum then SumRequiresVars else ProductRequiresVars) && unchanged(this)
      ensures r.Err? && |xs| > 0 ==> r.error.DuplicateVarName?
      ensures r.Ok? ==> allVarNames[..old(NumVars())] == old(allVarNames)
                        && |old(propagators)| <= |propagators| && propagators[..|old(propagators)|] == old(propagators)
      ensures |xs| == 1 ==>
                r == Ok(()) && unchanged(this`allVarNames) &&
                var n := EqRule(old(initialDomains[res]), old(initialDomains[xs[0]]));
                initialDomains == old(initialDomains)[res := n.a][xs[0] := n.b]
                && propagators == old(propagators) + if n.keep then [Create("eq", EqStepBare, res, xs[0])] else []
      ensures isSum && r.Ok? && |xs| >= 2 ==>
                allVarNames == old(allVarNames) + AnonNames(old(NumVars()), |xs| - 2)
                && initialDomains == old(initialDomains) + FullRanges(|xs| - 2)
                && propagators == old(propagators) + PlusRingsOf(SplitJoins(xs, res, old(NumVars())))
      ensures !isSum && r.Ok? && |xs| >= 2 ==>
                allVarNames == old(allVarNames) + AnonNames(old(NumVars()), |xs| - 2)
                && var e := ProductEffect(old(initialDomains), xs, res);
                   initialDomains == e.0 && propagators == old(propagators) + e.1
    {
      if isSum {
        ghost var js;
        r, js := AddSum(xs, res);
      } else {
        r := AddProduct(xs, res);
      }
    }

    /** The comparison cases of config_generatePropagator. */
    method GenerateComparison(name: string, l: nat, r: nat)
      requires Valid() && BinaryOp(name) && l < NumVars() && r < NumVars()
      modifies this`initialDomains, this`propagators
      ensures Valid()
      ensures var e := BinEffect(BinKindOf(name), old(initialDomains), l, r);
              initialDomains == e.0 && propagators == old(propagators) + e.1
    {
      match name {
        case "neq" => AddNeq(l, r);
        case "eq" => AddEq(l, r);
        case "gte" => AddGte(l, r);
        case "lte" => AddLte(l, r);
        case "gt" => AddGt(l, r);
        case "lt" => AddLt(l, r);
      }
    }

    /** The plus, min, ring-mul, ring-div and mul cases of config_generatePropagator: no domain grows. */
    method GenerateArithmetic(name: string, l: nat, r: nat, res: nat)
      requires Valid() && ResultOp(name) && name != "reifier" && l < NumVars() && r < NumVars() && res < NumVars()
      modifies this`initialDomains, this`propagators
      ensures Valid()
      ensures |initialDomains| == old(|initialDomains|) && Shrunk(old(initialDomains), initialDomains)
      ensures |old(propagators)| <= |propagators| <= |old(propagators)| + 3 && propagators[..|old(propagators)|] == old(propagators)
      ensures |propagators| == |old(propagators)| ==> name == "ring-mul" || name == "mul"
      ensures var e := ArithEffect(name, old(initialDomains), l, r, res);
              initialDomains == e.0 && propagators == old(propagators) + e.1
    {
      ArithEffectNarrows(name, old(initialDomains), l, r, res);
      match name {
        case "plus" => AddPlus(l, r, res);
        case "min" => AddMin(l, r, res);
        case "ring-mul" => AddRingMul(l, r, res);
        case "ring-div" => AddDiv(l, r, res);
        case "mul" => AddMul(l, r, res);
      }
    }

    /**
     * config_generatePropagators: the propagator list is rebuilt from the
     * recorded constraints, one builder call each, in order; the first
     * failing builder stops it.
     */
    method GeneratePropagators() returns (r: Result<()>)
      requires Valid()
      modifies this`allVarNames, this`varIndex, this`initialDomains, this`constantCache, this`propagators
      ensures Valid() && NumVars() >= old(NumVars())
      ensures r.Ok? ==> allVarNames[..old(NumVars())] == old(allVarNames)
      ensures allConstraints == [] ==> r == Ok(()) && propagators == [] && unchanged(this`allVarNames, this`initialDomains)
    {
      propagators := [];
      var i := 0;
      while i < |allConstraints|
        invariant 0 <= i <= |allConstraints| && Valid() && NumVars() >= old(NumVars())
        invariant allVarNames[..old(NumVars())] == old(allVarNames)
        invariant i == 0 ==> propagators == [] && unchanged(this`allVarNames, this`initialDomains)
      {
        var c := allConstraints[i];
        assert WellFormed(c, NumVars());
        ghost var n0 := allVarNames;
        r := GeneratePropagator(c);
        if r.Err? {
          return r;
        }
        assert allVarNames[..|old(allVarNames)|] == allVarNames[..|n0|][..|old(allVarNames)|];
        i := i + 1;
      }
      return Ok(());
    }

    /**
     * config_generateMarkovs: the options are visited in order; a name that
     * is not declared is refused, and the first markov variable gets a markov
     * propagator, after which the rest are not looked at.
     */
    method GenerateMarkovs() returns (r: Result<()>)
      requires Valid()
      modifies this`propagators
      ensures Valid()
      ensures var k := MarkovStop(varDistOptions, varIndex);
              if k == |varDistOptions| then r == Ok(()) && propagators == old(propagators)
              else if varDistOptions[k].0 !in varIndex then r == Err(UnknownMarkovVar(varDistOptions[k].0)) && propagators == old(propagators)
              else r == Ok(()) && propagators == old(propagators) + [Create("markov", MarkovStepBare, varIndex[varDistOptions[k].0])]
    {
      var i := 0;
      while i < |varDistOptions|
        invariant 0 <= i <= |varDistOptions| && i <= MarkovStop(varDistOptions, varIndex)
        invariant propagators == old(propagators)
      {
        var name := varDistOptions[i].0;
        var v := Lookup(name);
        if v < 0 {
          return Err(UnknownMarkovVar(name));
        }
        if varDistOptions[i].1.valtype == "markov" {
          AddMarkov(v);
          return Ok(());
        }
        i := i + 1;
      }
      return Ok(());
    }

    /** config_populateVarPropHash: see BuildVarPropHash. */
    method PopulateVarPropHash()
      requires Valid()
      modifies this`varToPropagators
      ensures |varToPropagators| == NumVars() && IsVarPropHash(varToPropagators, propagators, initialDomains)
    {
      varToPropagators := BuildVarPropHash(propagators, initialDomains);
    }

    /**
     * config_populateVarStrategyListHash: every level with a priority list
     * gets the index map of that list (see BuildPriorityByIndex); nothing
     * else of a level changes.
     */
    method PopulateVarStrategyListHash()
      requires NamesValid() && StrategyNamesDeclared(varStratConfig, varIndex)
      modifies this`varStratConfig
      ensures |varStratConfig| == old(|varStratConfig|)
      ensures forall i :: 0 <= i < |varStratConfig| ==> PriorityIndexed(old(varStratConfig[i]), varStratConfig[i], varIndex)
    {
      var levels := varStratConfig;
      var i := 0;
      while i < |levels|
        invariant 0 <= i <= |levels| && |varStratConfig| == |levels|
        invariant forall k :: 0 <= k < i ==> PriorityIndexed(levels[k], varStratConfig[k], varIndex)
        invariant forall k :: i <= k < |levels| ==> varStratConfig[k] == levels[k]
      {
        var level := levels[i];
        if level.priorityByName.Some? {
          var list := level.priorityByName.value;
          var idxs := VarNamesToIndexes(seq(|list|, j requires 0 <= j < |list| => Name(list[j])));
          var m := BuildPriorityByIndex(idxs);
          assert idxs == IndexesOf(list, varIndex);
          varStratConfig := varStratConfig[i := level.(priorityByIndex := Some(m))];
          assert PriorityIndexed(levels[i], varStratConfig[i], varIndex);
        }
        i := i + 1;
      }
    }

    /**
     * config_init: propagators are generated from the recorded constraints,
     * the first markov variable gets its propagator, then the
     * variable-to-propagator table and the strategy priority maps are built.
     */
    method Init() returns (r: Result<()>)
      requires Valid() && StrategyNamesDeclared(varStratConfig, varIndex)
      modifies this`allVarNames, this`varIndex, this`initialDomains, this`constantCache, this`propagators,
               this`varToPropagators, this`varStratConfig
      ensures Valid() && NumVars() >= old(NumVars())
      ensures r.Ok? ==> |varToPropagators| == NumVars() && IsVarPropHash(varToPropagators, propagators, initialDomains)
      ensures r.Ok? ==> |varStratConfig| == old(|varStratConfig|)
                        && forall i :: 0 <= i < |varStratConfig| ==> PriorityIndexed(old(varStratConfig[i]), varStratConfig[i], varIndex)
    {
      ghost var n0, v0 := allVarNames, varIndex;
      r := GeneratePropagators();
      if r.Err? { return r; }
      r := GenerateMarkovs();
      if r.Err? { return r; }
      PopulateVarPropHash();
      KeysKept(n0, v0, allVarNames, varIndex);
      PopulateVarStrategyListHash();
    }
  

    /**
     * The varValueStrat case of config_setOption: the options are stored for
     * the target first; a markov variable then gets its matrix (expanded when
     * missing), whose rows are checked one by one, each checked row recording
     * the index of its boolVarName. The first refused row stops the pass and
     * leaves the rows before it checked.
     */
    method SetVarValueStrat(target: string, o: DistOptions) returns (r: Result<()>)
      requires Unkeyed(varDistOptions, target)
      modifies this`varDistOptions
      ensures varDistOptions == old(varDistOptions) + [(target, StoredOptions(o, varIndex))]
      ensures r == ValueStratOutcome(o, varIndex)
    {
      varDistOptions := varDistOptions + [(target, o)];
      var at := |varDistOptions| - 1;
      if o.valtype != "markov" {
        return Ok(());
      }
      var mm := MarkovMatrix(o);
      if mm.Err? {
        return Err(mm.error);
      }
      var rows := mm.value;
      var checked, k := CheckRows(rows, varIndex);
      varDistOptions := varDistOptions[at := (target, o.(matrix := Some(checked)))];
      if k < |rows| {
        return Err(CheckRow(rows[k], varIndex).error);
      }
      return Ok(());
    }

    /** The varStratOverrides case: each entry in turn goes through the varValueStrat case, up to the first refused one. */
    method SetVarStratOverrides(ov: seq<(string, DistOptions)>) returns (r: Result<()>)
      requires DistinctKeys(ov) && forall i :: 0 <= i < |ov| ==> Unkeyed(varDistOptions, ov[i].0)
      modifies this`varDistOptions
      ensures var k := FirstFailing(ov, varIndex);
              varDistOptions == old(varDistOptions) + StoredAll(ov[..if k < |ov| then k + 1 else k], varIndex)
              && r == if k < |ov| then ValueStratOutcome(ov[k].1, varIndex) else Ok(())
    {
      ghost var k := FirstFailing(ov, varIndex);
      var i := 0;
      while i < |ov|
        invariant 0 <= i <= k
        invariant varDistOptions == old(varDistOptions) + StoredAll(ov[..i], varIndex)
      {
        StillUnkeyed(old(varDistOptions), ov, i, varIndex);
        r := SetVarValueStrat(ov[i].0, ov[i].1);
        StoredAllSnoc(ov, i, varIndex);
        if r.Err? {
          assert k == i;
          return r;
        }
        i := i + 1;
      }
      assert ov[..i] == ov;
      return Ok(());
    }

    /**
     * config_setOption. A deprecated or removed option name, or one that is
     * not known, is refused; the strategy, value strategy and target options
     * are checked and then replace their field; the per-variable options go
     * through SetVarValueStrat. The rng and timeout callback options change
     * nothing this model keeps.
     */
    method SetOption(name: string, value: OptionValue, target: Option<string>) returns (r: Result<()>)
      requires OptionShape(name, value)
      requires name == "varValueStrat" ==> target.Some? && Unkeyed(varDistOptions, target.value)
      requires name == "varStratOverrides" ==>
                 DistinctKeys(value.overrides) && forall i :: 0 <= i < |value.overrides| ==> Unkeyed(varDistOptions, value.overrides[i].0)
      modifies this`varStratConfig, this`valueStratName, this`targetedVars, this`varDistOptions
      ensures name == "varStratOverride" ==> r == Err(DeprecatedOption) && unchanged(this)
      ensures name == "var" || name == "val" ==> r == Err(RemovedOption) && unchanged(this)
      ensures name == "rng" || name == "timeoutCallback" ==> r == Ok(()) && unchanged(this)
      ensures !(name in KnownOptions) ==> r == Err(UnknownOption(name)) && unchanged(this)
      ensures name == "varStrategy" ==>
                var s := StrategyCheck(value.strategy);
                (s.Err? ==> r == Err(s.error) && unchanged(this))
                && (s.Ok? ==> r == Ok(()) && unchanged(this`valueStratName, this`targetedVars, this`varDistOptions)
                              && |varStratConfig| == |Chain(s.value)|
                              && forall i :: 0 <= i < |varStratConfig| ==> varStratConfig[i] == CreateVarStratConfig(Some(Chain(s.value)[i])))
      ensures name == "valueStrategy" ==>
                r == Ok(()) && valueStratName == value.name && unchanged(this`varStratConfig, this`targetedVars, this`varDistOptions)
      ensures name == "targeted_var_names" ==>
                if HasTargets(value.targets)
                then r == Ok(()) && targetedVars == value.targets && unchanged(this`varStratConfig, this`valueStratName, this`varDistOptions)
                else r == Err(NoTargetVars) && unchanged(this)
      ensures name == "varValueStrat" ==>
                r == ValueStratOutcome(value.dist, varIndex)
                && varDistOptions == old(varDistOptions) + [(target.value, StoredOptions(value.dist, varIndex))]
                && unchanged(this`varStratConfig, this`valueStratName, this`targetedVars)
      ensures name == "varStratOverrides" ==>
                var ov, k := value.overrides, FirstFailing(value.overrides, varIndex);
                r == (if k < |ov| then ValueStratOutcome(ov[k].1, varIndex) else Ok(()))
                && varDistOptions == old(varDistOptions) + StoredAll(ov[..if k < |ov| then k + 1 else k], varIndex)
                && unchanged(this`varStratConfig, this`valueStratName, this`targetedVars)
    {
      if name == "varStratOverride" {
        return Err(DeprecatedOption);
      }
      match name
      case "varStrategy" =>
        var s := StrategyCheck(value.strategy);
        if s.Err? {
          return Err(s.error);
        }
        varStratConfig := CreateStrategyChain(s.value);
        r := Ok(());
      case "valueStrategy" =>
        valueStratName := value.name;
        r := Ok(());
      case "targeted_var_names" =>
        if !HasTargets(value.targets) {
          return Err(NoTargetVars);
        }
        targetedVars := value.targets;
        r := Ok(());
      case "varStratOverrides" =>
        r := SetVarStratOverrides(value.overrides);
      case "varValueStrat" =>
        r := SetVarValueStrat(target.value, value.dist);
      case "timeoutCallback" =>
        r := Ok(());
      case "var" =>
        r := Err(RemovedOption);
      case "val" =>
        r := Err(RemovedOption);
      case "rng" =>
        r := Ok(());
      case _ =>
        r := Err(UnknownOption(name));
    }
  }
}
