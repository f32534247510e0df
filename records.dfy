/**
 * The propagator record the compiler emits. Step functions and the domain
 * arithmetic passed as arguments are opaque in the source's compiler (they
 * live in other files), so they are tags here.
 */
module Records {

  /** The function values a propagator record can carry. */
  datatype Fn =
    | EqStepBare | NeqStepBare | LtStepBare | GtStepBare | LteStepBare | GteStepBare
    | EqStepWouldReject | NeqStepWouldReject | LtStepWouldReject | GtStepWouldReject
    | LteStepWouldReject | GteStepWouldReject
    | ReifiedStepBare | RingStepBare | MinStep | MulStep | DivStep | MarkovStepBare
    | DomainPlus | DomainMinus | DomainMul | DomainInvMul

  /** One of the six extra arguments: absent (''), an operator name, or a function. */
  datatype Arg = NoArg | Text(text: string) | Func(f: Fn)

  datatype Propagator = Propagator(
    name: string,
    stepper: Fn,
    index1: int,
    index2: int,
    index3: int,
    args: seq<Arg>)

  /** The variable indexes a propagator reads; -1 marks an absent slot. */
  function Participants(p: Propagator): (vs: seq<int>)
    ensures forall k :: 0 <= k < |vs| ==> vs[k] == p.index1 || (vs[k] >= 0 && (vs[k] == p.index2 || vs[k] == p.index3))
    ensures p.index1 in vs
    ensures p.index2 >= 0 ==> p.index2 in vs
    ensures p.index3 >= 0 ==> p.index3 in vs
  {
    [p.index1] + (if p.index2 >= 0 then [p.index2] else []) + (if p.index3 >= 0 then [p.index3] else [])
  }

  /** Every participant names an existing variable (index2/index3 may be absent). */
  predicate InRange(p: Propagator, n: nat)
  {
    0 <= p.index1 < n && -1 <= p.index2 < n && -1 <= p.index3 < n
  }

  /**
   * propagator_create: missing indexes default to -1 and missing arguments to
   * the empty argument, so every record has three index slots and six arguments.
   */
  function Create(name: string, stepper: Fn, index1: nat, index2: int := -1, index3: int := -1,
                  args: seq<Arg> := []): (p: Propagator)
    requires -1 <= index2 && -1 <= index3 && |args| <= 6
    ensures |p.args| == 6 && p.args[..|args|] == args
    ensures forall k :: |args| <= k < 6 ==> p.args[k] == NoArg
    ensures p.name == name && p.stepper == stepper
  {
    Propagator(name, stepper, index1, index2, index3, args + seq(6 - |args|, _ => NoArg))
  }

  /** A created record's participants are its given indexes, in order, without the absent ones. */
  lemma CreateParticipants(name: string, stepper: Fn, index1: nat, index2: int, index3: int, args: seq<Arg>)
    requires -1 <= index2 && -1 <= index3 && |args| <= 6
    ensures Participants(Create(name, stepper, index1, index2, index3, args))
              == [index1] + (if index2 >= 0 then [index2] else []) + (if index3 >= 0 then [index3] else [])
  {
  }

  /** Every entry of xs is below n. */
  predicate AllBelow(xs: seq<nat>, n: nat)
  {
    forall i :: 0 <= i < |xs| ==> xs[i] < n
  }

  /** The extra parameter a constraint records: a reifier's op, or a sum/product result. */
  datatype Param = NoParam | Op(op: string) | ResultIndex(index: nat)

  /** constraint_create: the constraint name, its operand indexes and its extra parameter. */
  datatype Constraint = Constraint(name: string, varIndexes: seq<nat>, param: Param)

  /** Constraints whose third operand is a result variable. */
  predicate ResultOp(name: string)
  {
    name == "reifier" || name == "plus" || name == "min" || name == "ring-mul" || name == "ring-div" || name == "mul"
  }

  predicate BinaryOp(name: string)
  {
    name == "eq" || name == "neq" || name == "lt" || name == "lte" || name == "gt" || name == "gte"
  }

  /** The constraints that return the name of a result variable. */
  predicate HasResult(name: string)
  {
    ResultOp(name) || name == "sum" || name == "product"
  }

  /** The constraint names config_addConstraint accepts. */
  predicate KnownConstraint(name: string)
  {
    HasResult(name) || BinaryOp(name) || name == "distinct"
  }

  /** What a recorded constraint holds: indexes of existing variables, in the shape its kind needs. */
  predicate WellFormed(c: Constraint, n: nat)
  {
    AllBelow(c.varIndexes, n)
    && (c.param.ResultIndex? ==> c.param.index < n)
    && (ResultOp(c.name) ==> |c.varIndexes| == 3)
    && (c.name == "reifier" ==> c.param.Op?)
    && (c.name == "sum" || c.name == "product" ==> c.param.ResultIndex?)
    && (BinaryOp(c.name) ==> |c.varIndexes| >= 2)
  }
}
