/**
 * The variable-distribution strategy configuration: one level per strategy
 * object in a chain of fallbacks, and the priority index built from a level's
 * list of variable names.
 */
module Strategy {
  import opened Base

  /** A var-strategy option as the caller passes it: the fields the compiler reads. */
  datatype StratObject = StratObject(
    typeName: Option<string>,
    priorityList: Option<seq<string>>,
    inverted: bool,
    name: Option<string>,
    distName: Option<string>,
    fallback: Option<StratObject>)

  /** $var_strat_config, without its fallback link: a config holds the chain as a list of levels. */
  datatype StratLevel = StratLevel(
    typeName: string,
    priorityByName: Option<seq<string>>,
    priorityByIndex: Option<map<int, nat>>,
    inverted: bool)

  /** A string option that JavaScript would read as true: present and not empty. */
  predicate Truthy(s: Option<string>) { s.Some? && s.value != "" }

  /**
   * config_createVarStratConfig: the type defaults to "naive" when it is
   * missing or empty; the priority list and the inverted flag are copied.
   */
  function CreateVarStratConfig(obj: Option<StratObject>): (c: StratLevel)
    ensures c.typeName != "" && c.priorityByIndex.None?
    ensures obj.None? ==> c == StratLevel("naive", None, None, false)
    ensures obj.Some? && Truthy(obj.value.typeName) ==> c.typeName == obj.value.typeName.value
    ensures obj.Some? && !Truthy(obj.value.typeName) ==> c.typeName == "naive"
    ensures obj.Some? ==> c.priorityByName == obj.value.priorityList && c.inverted == obj.value.inverted
  {
    match obj
    case None => StratLevel("naive", None, None, false)
    case Some(o) => StratLevel(if Truthy(o.typeName) then o.typeName.value else "naive", o.priorityList, None, o.inverted)
  }

  /** The strategy object followed by its fallbacks, outermost first. */
  function Chain(o: StratObject): (c: seq<StratObject>)
    ensures |c| >= 1 && c[0] == o
    decreases o
  {
    [o] + (if o.fallback.Some? then Chain(o.fallback.value) else [])
  }

  /**
   * The varStrategy case of config_setOption: the object and each of its
   * fallbacks in turn become a level of their own.
   */
  method CreateStrategyChain(o: StratObject) returns (levels: seq<StratLevel>)
    ensures |levels| == |Chain(o)|
    ensures forall i :: 0 <= i < |levels| ==> levels[i] == CreateVarStratConfig(Some(Chain(o)[i]))
  {
    var cur := o;
    levels := [CreateVarStratConfig(Some(o))];
    while cur.fallback.Some?
      invariant 1 <= |levels| <= |Chain(o)|
      invariant Chain(o)[|levels| - 1..] == Chain(cur)
      invariant forall i :: 0 <= i < |levels| ==> levels[i] == CreateVarStratConfig(Some(Chain(o)[i]))
      decreases cur
    {
      assert Chain(cur) == [cur] + Chain(cur.fallback.value);
      cur := cur.fallback.value;
      levels := levels + [CreateVarStratConfig(Some(cur))];
    }
    assert Chain(cur) == [cur];
  }

  /** No position strictly between i and p repeats the entry at position i. */
  ghost predicate NotRepeatedBefore(indexes: seq<int>, i: nat, p: nat)
    requires i < |indexes| && p <= |indexes|
  {
    forall j :: i < j < p ==> indexes[j] != indexes[i]
  }

  /** What the first p steps of the priority loop have built. */
  ghost predicate PriorityBuilt(indexes: seq<int>, m: map<int, nat>, p: nat)
    requires p <= |indexes|
  {
    && (forall k :: k in m <==> k in indexes[..p])
    && (forall k :: k in m ==> |indexes| - p < m[k] <= |indexes|)
    && (forall i :: 0 <= i < p ==>
          indexes[i] in m && m[indexes[i]] <= |indexes| - i
          && (m[indexes[i]] == |indexes| - i <==> NotRepeatedBefore(indexes, i, p)))
  }

  /** One step of the loop: the entry at position p takes priority len - p. */
  lemma PriorityStep(indexes: seq<int>, m: map<int, nat>, p: nat)
    requires p < |indexes| && PriorityBuilt(indexes, m, p)
    ensures PriorityBuilt(indexes, m[indexes[p] := |indexes| - p], p + 1)
  {
    var m' := m[indexes[p] := |indexes| - p];
    assert indexes[..p + 1] == indexes[..p] + [indexes[p]];
    forall i | 0 <= i < p + 1
      ensures indexes[i] in m' && m'[indexes[i]] <= |indexes| - i
      ensures m'[indexes[i]] == |indexes| - i <==> NotRepeatedBefore(indexes, i, p + 1)
    {
      if i < p {
        PriorityStepAt(indexes, m, p, i);
      }
    }
  }

  /** The step at an earlier position i: it loses its top priority exactly when position p repeats it. */
  lemma PriorityStepAt(indexes: seq<int>, m: map<int, nat>, p: nat, i: nat)
    requires i < p < |indexes|
    requires indexes[i] in m && m[indexes[i]] <= |indexes| - i
    requires m[indexes[i]] == |indexes| - i <==> NotRepeatedBefore(indexes, i, p)
    ensures var m' := m[indexes[p] := |indexes| - p];
      indexes[i] in m' && m'[indexes[i]] <= |indexes| - i
      && (m'[indexes[i]] == |indexes| - i <==> NotRepeatedBefore(indexes, i, p + 1))
  {
    if indexes[i] == indexes[p] {
      assert !NotRepeatedBefore(indexes, i, p + 1);
    } else if NotRepeatedBefore(indexes, i, p) {
      assert NotRepeatedBefore(indexes, i, p + 1);
    }
  }

  /**
   * The loop of config_populateVarStrategyListHash for one level: the variable
   * at list position i gets priority len - i, so a variable listed twice keeps
   * the priority of its last position. Priorities are never 0.
   */
  method BuildPriorityByIndex(indexes: seq<int>) returns (m: map<int, nat>)
    ensures forall k :: k in m <==> k in indexes
    ensures forall k :: k in m ==> 1 <= m[k] <= |indexes|
    ensures forall i :: 0 <= i < |indexes| ==>
              indexes[i] in m && m[indexes[i]] <= |indexes| - i
              && (m[indexes[i]] == |indexes| - i <==> forall j :: i < j < |indexes| ==> indexes[j] != indexes[i])
  {
    var len := |indexes|;
    m := map[];
    var p := 0;
    while p < len
      invariant 0 <= p <= len
      invariant PriorityBuilt(indexes, m, p)
    {
      PriorityStep(indexes, m, p);
      m := m[indexes[p] := len - p];
      p := p + 1;
    }
    assert indexes[..p] == indexes;
  }
}
