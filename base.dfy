/** Shared result type: the compiler's THROW sites become `Err` values. */
module Base {

  datatype Option<+T> = None | Some(value: T)

  /** The user-facing errors the compiler raises, one per THROW site that is modelled. */
  datatype Error =
    | EmptyVarName
    | NumericVarName(name: string)
    | DuplicateVarName(name: string)
    | UndeclaredVar(name: string)
    | UnknownPropagator(name: string)
    | UnexpectedName(name: string)      // a recorded constraint the generator does not know
    | DuplicateResultlessWithResult      // "How is this possible?"
    | DuplicateResultWithoutResult       // the ASSERT that a known result constraint gets a result again
    | UnknownOp                          // reifier fold on an op that is not lt/lte/gt/gte/eq/neq
    | UnknownReifiedOp
    | SumRequiresVars
    | ProductRequiresVars
    | UnknownMarkovVar(name: string)
    | DeprecatedOption
    | RemovedOption
    | UnknownOption(name: string)
    | VarStrategyFunction
    | VarStrategyString
    | VarStrategyNotObject
    | VarStrategyHasName
    | VarStrategyHasDistName
    | NoTargetVars
    | MarkovMissingDistribution
    | MarkovRowBoolean
    | MarkovRowBooleanId
    | MarkovRowBadBoolVarName

  datatype Result<+T> = Ok(value: T) | Err(error: Error)
}
