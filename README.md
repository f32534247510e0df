# finitedomain constraint compiler, in Dafny

This project models the constraint compiler of the finitedomain solver: the
config record of `src/config.js` and the propagator builders of
`src/propagator.js`. The config record keeps the variable table (names, a
name-to-index map, the initial domains), interns literal constants as
anonymous variables, deduplicates constraints by a signature string, folds
comparisons, reifiers and sums/products at compile time (narrowing the
initial domains in place and dropping constraints that are already decided),
and finally turns the recorded constraints into propagator records, builds
the variable-to-propagator table and the priority maps of the variable
strategy. The builders narrow the domains once more and either resolve their
constraint or append propagators; sums and products of many operands are
split recursively into a balanced tree of anonymous temporaries.

Layout (one module per file):

- `base.dfy`: `Option`, `Result` and the error conditions the source throws.
- `domain.dfy`: a domain is a `set<nat>` with SUB = 0 and SUP = 100000000;
  min, max, getValue and the narrowing helpers.
- `records.dfy`: propagator and constraint records.
- `names.dfy`: anonymous names, the numeric-name check and the dedupe key.
- `rules.dfy`: the pure case splits of the builders (eq, neq, lt, lte, mul,
  the reifier plans) with their soundness lemmas.
- `effects.dfy`: the builders' effect on the whole domain table, the pair
  enumeration of `distinct`, and the joins and tables of the sum/product
  decomposition.
- `folds.dfy`: the compile-time folds of `config_solvedAtCompileTime`.
- `strategy.dfy`, `options.dfy`: strategy levels, priority maps and the
  values `config_setOption` accepts.
- `adjacency.dfy`: the variable-to-propagator table.
- `compiler.dfy`: `class Config`, whose methods update the record's fields in
  place, each proved against the functions above.

Behaviours of the code that are mirrored as written:

- `propagator_addNeq` tests the left domain twice (propagator.js:585), so a
  solved right side is never folded (`Rules.NeqRuleIgnoresSolvedRight`).
- `propagator_mulConstraintResolved` divides vA by vC in the solved A and C
  branch (propagator.js:503), which can empty B although a solution exists
  (`Rules.MulRuleQuotientOrder`).
- The `lt` reifier carries the neq step as its op function
  (propagator.js:277).
- `propagator_addEq` copies a solved side over the other without
  intersecting (propagator.js:347, 349), so the other domain can grow
  (`Rules.EqRuleCopiesSolvedSide`). This is the one place where domains do
  not only shrink, which is why the "only shrink" results are stated for the
  compile-time folds and the other builders.
- `config_generateMarkovs` returns after the first markov variable
  (config.js:1194-1196).
- The trimming recursion of the lt/lte/gt/gte folds compares domains by
  identity (config.js:770, 811); the model compares them by value, which is
  what the identity test stands for, since the helpers return a new domain
  exactly when they remove something.
- A solved domain's value is cached only when it is not cached yet or cached
  at index 0, because the cache test reads the cached index as a boolean
  (config.js:296).

## Model

| member | source | states |
|---|---|---|
| Domain.CreateRange | finitedomain-master/finitedomain-master/src/config.js:205-214 | domain_createRange as config_addVarRange uses it: exactly the values lo..hi |
| Domain.Min | finitedomain-master/finitedomain-master/src/propagator.js:364-395 | domain_min: the least member of a non-empty domain, NO_SUCH_VALUE (-1) for an empty one |
| Domain.Max | finitedomain-master/finitedomain-master/src/propagator.js:364-395 | domain_max: the greatest member of a non-empty domain, NO_SUCH_VALUE for an empty one |
| Domain.GetValue | finitedomain-master/finitedomain-master/src/config.js:296-297 | domain_getValue: non-negative exactly when the domain is solved, and then it is the only member |
| Records.Create | finitedomain-master/finitedomain-master/src/propagator.js:76-91 | propagator_create: missing indexes stay -1, missing arguments are filled with the empty argument up to six, and the participants are index1 plus each non-negative later index |
| Records.Participants | finitedomain-master/finitedomain-master/src/config.js:513-524 | the variables a propagator reads: index1 and whichever of index2/index3 are non-negative |
| Records.CreateParticipants | finitedomain-master/finitedomain-master/src/propagator.js:76-91 | a created propagator's participants are exactly its declared indexes |
| Rules.LtRule | finitedomain-master/finitedomain-master/src/propagator.js:364-395 | propagator_addLt: maxA < minB leaves both as they are and drops the constraint; minA >= maxB empties both and drops it; otherwise the left keeps its values below maxB, the right its values above minA, and the constraint is kept; so no pair with x < y is lost and a dropped constraint holds for every remaining pair |
| Rules.LteRule | finitedomain-master/finitedomain-master/src/propagator.js:416-447 | propagator_addLte: the same case split for <=: minA > maxB empties both, otherwise the left keeps values <= maxB and the right values >= minA |
| Rules.EqRule | finitedomain-master/finitedomain-master/src/propagator.js:340-354 | propagator_addEq: a solved left side is copied over the right one, else a solved right side over the left one, and the constraint is dropped exactly then; otherwise both become the intersection and it is kept; common values are never lost |
| Rules.EqRuleCopiesSolvedSide | finitedomain-master/finitedomain-master/src/propagator.js:346-349 | the copy of a solved side is not an intersection: eq({5},{1}) leaves {5} on both sides, so the right side grows |
| Rules.NeqRule | finitedomain-master/finitedomain-master/src/propagator.js:575-591 | propagator_addNeq: no pair with x != y is lost, the constraint is kept exactly when the left side is unsolved and the sides overlap |
| Rules.NeqRuleIgnoresSolvedRight | finitedomain-master/finitedomain-master/src/propagator.js:583-588 | the second test re-reads the left domain, so a solved right side with an unsolved overlapping left side narrows nothing and keeps the propagator |
| Rules.MulRule | finitedomain-master/finitedomain-master/src/propagator.js:475-539 | propagator_mulConstraintResolved: every domain only shrinks and only the three operand slots can change; the branches are stated by the MulRule lemmas below |
| Rules.MulRuleResolved | finitedomain-master/finitedomain-master/src/propagator.js:488-539 | the product counts as resolved exactly when one factor is solved and either both are, one is solved to zero, or the result is solved |
| Rules.MulRuleSolvedFactors | finitedomain-master/finitedomain-master/src/propagator.js:488-497 | a factor solved to zero intersects the result with {0}; two solved factors intersect it with {vA * vB} |
| Rules.MulRuleSolvedProduct | finitedomain-master/finitedomain-master/src/propagator.js:498-527 | one solved non-zero factor and a solved result: a zero result forces the open factor to {0}, otherwise it is intersected with the quotient, or emptied when the division leaves a remainder |
| Rules.MulRuleOpenProduct | finitedomain-master/finitedomain-master/src/propagator.js:508-537 | one solved non-zero factor and an open result scale each other (result times, factor divided); two open factors bound all three by invMul and mul |
| Rules.MaxZeroSolved | finitedomain-master/finitedomain-master/src/propagator.js:511 | the maxB === 0 test stands for B == {0}: a domain whose greatest member is 0 holds only 0 |
| Rules.MulRuleSound | finitedomain-master/finitedomain-master/src/propagator.js:475-539 | on three distinct variables and outside the quotient case, every assignment a * b = c (all within SUP) survives the narrowing |
| Rules.MulRuleQuotientOrder | finitedomain-master/finitedomain-master/src/propagator.js:498-506 | the branch with solved A and C divides vA by vC, so A = {2}, C = {6} empties B = {3, 4} although 2 * 3 = 6 is a solution |
| Rules.ReifiedPlan | finitedomain-master/finitedomain-master/src/propagator.js:118-327 | propagator_addReified's choice: the plan fails exactly when the op is unknown and the reifier is not already settled (A and B solved, C decided); a plan that builds a constraint relates two different slots |
| Rules.ReifiedPlanSound | finitedomain-master/finitedomain-master/src/propagator.js:160-324 | for a known op, every assignment in which the boolean is non-zero exactly when `a op b` holds is admitted by the chosen plan: a narrowed slot keeps its value and a constraint it builds is satisfied |
| Rules.EqPlanSound | finitedomain-master/finitedomain-master/src/propagator.js:161-208 | the eq case keeps every consistent assignment |
| Rules.NeqPlanSound | finitedomain-master/finitedomain-master/src/propagator.js:209-251 | the neq case keeps every consistent assignment |
| Rules.LtPlanSound | finitedomain-master/finitedomain-master/src/propagator.js:252-283 | the lt case keeps every consistent assignment |
| Rules.LtePlanSound | finitedomain-master/finitedomain-master/src/propagator.js:284-315 | the lte case keeps every consistent assignment |
| Rules.SwapPlanAdmits | finitedomain-master/finitedomain-master/src/propagator.js:316-320 | swapping the operands of a plan is the same as swapping the values it admits |
| Effects.BinEffect | finitedomain-master/finitedomain-master/src/propagator.js:340-447 | the effect of addEq/Neq/Lt/Lte/Gt/Gte on the whole table: same length, every new propagator in range |
| Effects.BinEffectSound | finitedomain-master/finitedomain-master/src/propagator.js:340-591 | any assignment satisfying the relation on two distinct variables survives the builder |
| Effects.ReifiedEffectSound | finitedomain-master/finitedomain-master/src/propagator.js:118-327 | propagator_addReified on three distinct variables keeps every assignment whose boolean reflects `l op r` |
| Effects.RingTriple | finitedomain-master/finitedomain-master/src/propagator.js:621-632 | propagator_addRingPlusOrMul: exactly three ring propagators, (A,B,C,op), (C,B,A,inv), (C,A,B,inv) |
| Effects.ArithEffectNarrows | finitedomain-master/finitedomain-master/src/propagator.js:455-690 | no arithmetic builder grows a domain; plus, min and ring-div leave every domain as it is and always append a propagator |
| Effects.ArithEffectInRange | finitedomain-master/finitedomain-master/src/propagator.js:455-690 | an arithmetic builder appends at most three propagators, all over declared variables |
| Effects.ArithEffectSound | finitedomain-master/finitedomain-master/src/propagator.js:455-690 | the product builders keep every assignment with l * r == res within SUP, outside the quotient case |
| Effects.MulEffect | finitedomain-master/finitedomain-master/src/propagator.js:455-464 | propagator_addMul: the table MulRule leaves, and one mul propagator or none when MulRule resolved the product |
| Effects.RingMulEffect | finitedomain-master/finitedomain-master/src/propagator.js:686-690 | propagator_addRingMul: the table MulRule leaves, and at most the mul/div ring triple |
| Effects.PlanEffect | finitedomain-master/finitedomain-master/src/propagator.js:118-327 | a reifier plan keeps the table length and appends only propagators over declared variables |
| Effects.SplitJoins | finitedomain-master/finitedomain-master/src/propagator.js:700-735 | the joins addSum makes, in order: exactly |xs| - 1 of them |
| Effects.SplitHalf | finitedomain-master/finitedomain-master/src/propagator.js:723-730 | the first half of a split: |ys| - 1 joins, and the next free index advanced by as many temporaries |
| Effects.PlusRingsOf | finitedomain-master/finitedomain-master/src/propagator.js:659-661 | three plus rings per join |
| Effects.PlusRingsOfAreRings | finitedomain-master/finitedomain-master/src/propagator.js:659-661 | every propagator the sum decomposition appends is a ring propagator |
| Effects.SplitJoinsTwo | finitedomain-master/finitedomain-master/src/propagator.js:715-717 | two operands are one plus triple into the result |
| Effects.SumSplitJoined | finitedomain-master/finitedomain-master/src/propagator.js:723-734 | the halves of a split sum together append exactly |xs| - 2 temporaries and the rings of SplitJoins(xs) |
| Effects.SplitJoinsSum | finitedomain-master/finitedomain-master/src/propagator.js:700-735 | the decomposition computes the sum: when every plus join holds, the result holds the sum of the operands |
| Effects.ProductEffect | finitedomain-master/finitedomain-master/src/propagator.js:745-778 | the table addProduct leaves grows by exactly |xs| - 2 temporaries |
| Effects.ProductHalf | finitedomain-master/finitedomain-master/src/propagator.js:766-773 | the first half of a split product grows the table by |ys| - 1 and names a variable of the grown table |
| Effects.ProductEffectSplit | finitedomain-master/finitedomain-master/src/propagator.js:766-777 | a split product is its first half, its second half into the next fresh variable and one ring-mul into the result |
| Effects.ProductEffectGrows | finitedomain-master/finitedomain-master/src/propagator.js:745-778 | a product decomposition narrows the domains it started with, keeps its temporaries within SUB..SUP and appends at most 3 * (|xs| - 1) ring propagators |
| Effects.PairsComplete | finitedomain-master/finitedomain-master/src/propagator.js:600-609 | propagator_addDistinct visits every pair of positions j < i |
| Effects.PairsSound | finitedomain-master/finitedomain-master/src/propagator.js:600-609 | propagator_addDistinct visits nothing but pairs of positions j < i |
| Effects.PairsMembers | finitedomain-master/finitedomain-master/src/propagator.js:600-609 | both directions together: the visited pairs are exactly the pairs j < i |
| Effects.PairsCount | finitedomain-master/finitedomain-master/src/propagator.js:600-609 | k operands give k * (k - 1) / 2 neq calls |
| Effects.NeqFoldAppend | finitedomain-master/finitedomain-master/src/propagator.js:600-609 | the neq calls over a + b are the calls over a followed by the calls over b from the resulting table |
| Effects.NeqFoldSound | finitedomain-master/finitedomain-master/src/propagator.js:575-609 | a run of neq calls keeps any assignment in which every visited pair differs |
| Effects.DistinctKeepsSolutions | finitedomain-master/finitedomain-master/src/propagator.js:600-609 | addDistinct keeps every assignment of pairwise different values |
| Effects.SplitCounts | finitedomain-master/finitedomain-master/src/propagator.js:722-730 | splitting k > 2 operands at k / 2 gives halves of at least 1 and 2 operands, k - 2 temporaries and 3 * (k - 1) ring propagators in all |
| Effects.FullRangeUnsolved | finitedomain-master/finitedomain-master/src/config.js:172-174 | the domain of an anonymous temporary, SUB..SUP, is unsolved |
| Folds.CompileLtLte | finitedomain-master/finitedomain-master/src/config.js:732-773 | one trimming fixpoint for lt/lte on two distinct variables: domains only shrink, no satisfying pair is lost, a dropped constraint holds for all remaining pairs, a kept one has both sides unsolved with ordered bounds |
| Folds.CompileGtGte | finitedomain-master/finitedomain-master/src/config.js:774-814 | the same for gt/gte |
| Folds.LtLteAt | finitedomain-master/finitedomain-master/src/config.js:732-773 | _config_solvedAtCompileTimeLtLte over the table, aliasing included: only the two slots change and they only shrink |
| Folds.GtGteAt | finitedomain-master/finitedomain-master/src/config.js:774-814 | _config_solvedAtCompileTimeGtGte over the table: only the two slots change and they only shrink |
| Folds.LtLteAtTrim | finitedomain-master/finitedomain-master/src/config.js:765-772 | a trimming step that changes a domain strictly lowers the total size, so the recursion terminates; one that changes nothing is the fixpoint and keeps the constraint |
| Folds.GtGteAtTrim | finitedomain-master/finitedomain-master/src/config.js:806-813 | the same for gt/gte |
| Folds.LtLteAtDistinct | finitedomain-master/finitedomain-master/src/config.js:732-773 | on two distinct variables the table-level fold is the two-domain fold CompileLtLte |
| Folds.GtGteAtDistinct | finitedomain-master/finitedomain-master/src/config.js:774-814 | on two distinct variables the table-level fold is CompileGtGte |
| Folds.CompileEq | finitedomain-master/finitedomain-master/src/config.js:815-831 | a solved side makes both sides its intersection with the other and drops the constraint; common values are kept |
| Folds.CompileNeq | finitedomain-master/finitedomain-master/src/config.js:832-849 | a solved side has its value removed from the other side and the constraint dropped; differing pairs are kept |
| Folds.ReifierTruth | finitedomain-master/finitedomain-master/src/config.js:919-950 | both operands solved: the truth of `v1 op v2` for a known op, nothing for an unknown one |
| Folds.ReifierLeftFold | finitedomain-master/finitedomain-master/src/config.js:951-988 | left operand solved to v and the result decided: the right domain keeps exactly the x for which `v op x` matches the result |
| Folds.ReifierRightFold | finitedomain-master/finitedomain-master/src/config.js:989-1026 | right operand solved to v and the result decided: the left domain keeps exactly the x for which `x op v` matches the result |
| Folds.CompileReifier | finitedomain-master/finitedomain-master/src/config.js:850-918 | _config_solvedAtCompileTimeReifier: UNKNOWN_OP is raised exactly when the op is unknown and neither both operands are solved nor one is solved with a decided result; a fold only narrows the slot it writes |
| Folds.CompileReifierSound | finitedomain-master/finitedomain-master/src/config.js:850-1026 | a fold never removes a value that is part of a consistent assignment |
| Folds.CompileReifierEntailed | finitedomain-master/finitedomain-master/src/config.js:850-1026 | after a fold the remaining domains force the boolean to reflect `a op b`, so dropping the reifier loses nothing |
| Folds.FoldDomsSound | finitedomain-master/finitedomain-master/src/config.js:1039-1046 | the domain the result is bounded by contains every sum (product) of values picked from the operands while the running total stays within SUP |
| Folds.Unsolved | finitedomain-master/finitedomain-master/src/config.js:1051-1064 | the operands kept by the constant elimination are exactly the unsolved ones |
| Folds.ConstFoldPreservesTotal | finitedomain-master/finitedomain-master/src/config.js:1050-1071 | folding the solved operands into one constant keeps the total of any picked values |
| Folds.BoundResult | finitedomain-master/finitedomain-master/src/config.js:1037-1047 | only the result domain changes, and it only shrinks |
| Folds.Settle | finitedomain-master/finitedomain-master/src/config.js:1081-1098 | no operand left: the result is intersected with {0} and the constraint dropped; one operand: operand and result both become their intersection, the constraint is dropped exactly when that is solved, and then both go to the constrained-away list; more: nothing changes |
| Folds.RewriteOperands | finitedomain-master/finitedomain-master/src/config.js:1037-1078 | the first two steps of the sum/product fold: the old slots become BoundResult's table, at most one variable is added, and every rewritten operand is declared |
| Folds.SumProductResultBound | finitedomain-master/finitedomain-master/src/config.js:1037-1098 | after the whole fold the result domain lies within its old domain and within the sum (product) of the operand domains |
| Folds.RewrittenOperands | finitedomain-master/finitedomain-master/src/config.js:1050-1078 | with two or more operands the list is the unsolved operands in order, plus one more exactly when nothing is left or the total is not the identity: the cached variable of the total, or a new one holding only it |
| Names.DecimalRoundTrip | finitedomain-master/finitedomain-master/src/config.js:282 | String(varIndex) reads back as the index it renders |
| Names.AnonNameInjective | finitedomain-master/finitedomain-master/src/config.js:282 | two different indexes never get the same anonymous name |
| Names.AnonNameNotNumeric | finitedomain-master/finitedomain-master/src/config.js:282-286 | an anonymous name never trips the numeric-name check |
| Names.RenderedNumberIsNumeric | finitedomain-master/finitedomain-master/src/config.js:286 | the decimal rendering of any index up to MAX_EXACT_INT (2^53), below which every integer is a double, is refused as a var name |
| Names.ConstraintKey | finitedomain-master/finitedomain-master/src/config.js:625 | the dedupe key starts with the key op followed by `|` |
| Strategy.CreateVarStratConfig | finitedomain-master/finitedomain-master/src/config.js:328-340 | the type defaults to naive when missing or empty; the priority list and the inverted flag are copied; no index map yet |
| Strategy.CreateStrategyChain | finitedomain-master/finitedomain-master/src/config.js:368-373 | the level list has one entry per object of the fallback chain, each made by config_createVarStratConfig |
| Strategy.BuildPriorityByIndex | finitedomain-master/finitedomain-master/src/config.js:1204-1211 | the keys are exactly the listed indexes, each value is in 1..len, and an index gets len - i from its last position i |
| Options.MarkovMatrix | finitedomain-master/finitedomain-master/src/config.js:408-415 | a missing matrix becomes one empty row when vectors are expanded and is an error otherwise |
| Options.CheckRow | finitedomain-master/finitedomain-master/src/config.js:418-431 | the deprecated boolean and booleanId fields and a non-string boolVarName are refused in that order; a named row records the index of its name, -1 when undeclared |
| Options.FirstBadRow | finitedomain-master/finitedomain-master/src/config.js:417-432 | every row before the returned position passes and the row at it fails |
| Options.ValueStratOutcome | finitedomain-master/finitedomain-master/src/config.js:400-433 | a non-markov variable always succeeds; a markov one succeeds only when its matrix exists (or is expanded) and every row passes |
| Options.StrategyCheck | finitedomain-master/finitedomain-master/src/config.js:362-366 | only an object with neither a truthy name nor a truthy dist_name is accepted, and it is accepted unchanged |
| Options.FirstFailing | finitedomain-master/finitedomain-master/src/config.js:390-398 | every override before the returned position succeeds and the one at it fails |
| Adjacency.AddVarConditionally | finitedomain-master/finitedomain-master/src/config.js:525-536 | the propagator is appended under the variable exactly when the variable is unsolved and does not list it yet; nothing else changes |
| Adjacency.AddParticipants | finitedomain-master/finitedomain-master/src/config.js:518-521 | one propagator is appended under each of its unsolved participants |
| Adjacency.BuildVarPropHash | finitedomain-master/finitedomain-master/src/config.js:513-524 | every propagator is listed under each unsolved variable it reads, nothing else is listed, and each list is strictly increasing (no duplicates) |
| Compiler.MarkovStop | finitedomain-master/finitedomain-master/src/config.js:1188-1198 | every option before the stop position is a declared non-markov variable; the one at it is undeclared or markov |
| Compiler.CheckRows | finitedomain-master/finitedomain-master/src/config.js:417-432 | the rows are checked in order up to the first refused one, each accepted row replaced by its checked form |
| Compiler.OperandNames | finitedomain-master/finitedomain-master/src/config.js:625 | the names joined into the dedupe key, each named operand rendering as its name |
| Compiler.KeysKept | finitedomain-master/finitedomain-master/src/config.js:298-301 | names declared before stay declared when more variables are appended |
| Compiler.Config.constructor | finitedomain-master/finitedomain-master/src/config.js:75-114 | config_create: empty tables, the default strategy level, value strategy min, targets all |
| Compiler.Config.Lookup | finitedomain-master/finitedomain-master/src/config.js:599-600 | trie_get: a non-negative answer exactly for declared names, and then the variable at that index has that name |
| Compiler.Config.AddVar | finitedomain-master/finitedomain-master/src/config.js:263-304 | _config_addVar: empty names and numeric names up to 2^53 in magnitude are refused, a duplicate is refused while fewer than 100 vars exist; otherwise the index is the old count, the name (anonymous: __i__) and domain are appended, and a solved value is cached unless cached at a truthy index |
| Compiler.Config.Declare | finitedomain-master/finitedomain-master/src/config.js:295-301 | appends the name and the domain at the old count, indexes the name and caches a solved domain as CacheAfter says |
| Compiler.Config.AddVarNothing | finitedomain-master/finitedomain-master/src/config.js:180-182 | declares the name with domain SUB..SUP |
| Compiler.Config.AddVarAnonNothing | finitedomain-master/finitedomain-master/src/config.js:172-174 | declares one anonymous SUB..SUP variable at the old count |
| Compiler.Config.AddVarRange | finitedomain-master/finitedomain-master/src/config.js:205-214 | declares the name with domain lo..hi |
| Compiler.Config.AddVarConstant | finitedomain-master/finitedomain-master/src/config.js:247-255 | declares the name with domain {v} and caches v |
| Compiler.Config.AddVarAnonConstant | finitedomain-master/finitedomain-master/src/config.js:231-240 | a cached value returns its index and changes nothing (so a second call is idempotent); otherwise an anonymous {v} variable is declared and cached |
| Compiler.Config.AddVarAnonRange | finitedomain-master/finitedomain-master/src/config.js:189-197 | lo == hi is an anonymous constant: a cached lo returns its cached index with nothing changed, otherwise {lo} is declared under the next anonymous name and cached; lo < hi declares an anonymous lo..hi variable; the only error is a taken anonymous name |
| Compiler.Config.AddPropagator | finitedomain-master/finitedomain-master/src/config.js:499-503 | appends the propagator and nothing else |
| Compiler.Config.AddEq | finitedomain-master/finitedomain-master/src/propagator.js:340-354 | the two domains become EqRule's, and one eq propagator is appended exactly when EqRule keeps the constraint |
| Compiler.Config.ApplyBinary | finitedomain-master/finitedomain-master/src/propagator.js:340-591 | a comparison builder leaves exactly the table and propagators of BinEffect |
| Compiler.Config.AddNeq | finitedomain-master/finitedomain-master/src/propagator.js:575-591 | updated as NeqRule says |
| Compiler.Config.AddLt | finitedomain-master/finitedomain-master/src/propagator.js:364-395 | the two domains become LtRule's, and one lt propagator is appended exactly when LtRule keeps the constraint |
| Compiler.Config.AddLte | finitedomain-master/finitedomain-master/src/propagator.js:416-447 | the same with LteRule and one lte propagator |
| Compiler.Config.AddGt | finitedomain-master/finitedomain-master/src/propagator.js:404-407 | addLt with the operands swapped |
| Compiler.Config.AddGte | finitedomain-master/finitedomain-master/src/propagator.js:563-566 | addLte with the operands swapped |
| Compiler.Config.AddReified | finitedomain-master/finitedomain-master/src/propagator.js:118-327 | an unknown op is an error with nothing changed; otherwise the table and propagators change as the chosen plan says |
| Compiler.Config.MulConstraintResolved | finitedomain-master/finitedomain-master/src/propagator.js:475-539 | the table becomes MulRule's and the answer is its resolved flag |
| Compiler.Config.AddMul | finitedomain-master/finitedomain-master/src/propagator.js:455-464 | the table becomes MulRule's, and one mul propagator is appended exactly when MulRule does not resolve the product (MulEffect) |
| Compiler.Config.AddDiv | finitedomain-master/finitedomain-master/src/propagator.js:547-554 | appends one div propagator |
| Compiler.Config.AddMin | finitedomain-master/finitedomain-master/src/propagator.js:669-676 | appends one min propagator |
| Compiler.Config.AddRing | finitedomain-master/finitedomain-master/src/propagator.js:642-649 | appends one ring propagator carrying the op name and function |
| Compiler.Config.AddRingPlusOrMul | finitedomain-master/finitedomain-master/src/propagator.js:621-632 | appends the ring triple |
| Compiler.Config.AddPlus | finitedomain-master/finitedomain-master/src/propagator.js:659-661 | appends the plus/min ring triple |
| Compiler.Config.AddRingMul | finitedomain-master/finitedomain-master/src/propagator.js:686-690 | the table becomes MulRule's, and the mul/div ring triple is appended exactly when MulRule does not resolve the product (RingMulEffect) |
| Compiler.Config.AddMarkov | finitedomain-master/finitedomain-master/src/propagator.js:784-789 | appends one markov propagator on the variable |
| Compiler.Config.AddDistinct | finitedomain-master/finitedomain-master/src/propagator.js:600-609 | the table and propagators become those of the neq calls over every pair j < i, in loop order |
| Compiler.Config.AddNeqRow | finitedomain-master/finitedomain-master/src/propagator.js:605-607 | the inner loop of addDistinct: the neq calls of xs[i] against every earlier operand, in order |
| Compiler.Config.AddSum | finitedomain-master/finitedomain-master/src/propagator.js:700-735 | no operands is SUM_REQUIRES_VARS with nothing changed; one operand is eq(result, v0) exactly as EqRule says; two are one plus triple with the names and domains unchanged; more append |xs| - 2 anonymous SUB..SUP temporaries and exactly the plus rings of SplitJoins(xs, res, old count), the joins of the halving tree; the only other error is a temporary whose anonymous name is taken |
| Compiler.Config.AddSumTree | finitedomain-master/finitedomain-master/src/propagator.js:715-734 | two or more operands: exactly the temporaries and plus rings of SplitJoins |
| Compiler.Config.SumFirstHalf | finitedomain-master/finitedomain-master/src/propagator.js:723-730 | the first half: its only operand as it is, or its sum in a fresh temporary, with exactly SplitHalf's joins |
| Compiler.Config.SumSecondHalf | finitedomain-master/finitedomain-master/src/propagator.js:732-734 | the second half into a fresh temporary and the plus of both halves into the result |
| Compiler.Config.SumIntoFresh | finitedomain-master/finitedomain-master/src/propagator.js:726-727 | a sum into a fresh anonymous variable numbered with the old count |
| Compiler.Config.AddProductTree | finitedomain-master/finitedomain-master/src/propagator.js:761-777 | two or more operands: exactly ProductEffect |
| Compiler.Config.ProductFirstHalf | finitedomain-master/finitedomain-master/src/propagator.js:766-773 | the first half of a split product exactly as ProductHalf |
| Compiler.Config.ProductSecondHalf | finitedomain-master/finitedomain-master/src/propagator.js:775-777 | the second half into a fresh temporary and the ring-mul of both halves into the result |
| Compiler.Config.ProductIntoFresh | finitedomain-master/finitedomain-master/src/propagator.js:769-770 | a product into a fresh anonymous variable, exactly as ProductEffect over the grown table |
| Compiler.Config.AddProduct | finitedomain-master/finitedomain-master/src/propagator.js:745-778 | the same for products: no operands is PRODUCT_REQUIRES_VARS, one is EqRule, and two or more append |xs| - 2 anonymous temporaries and leave exactly the domains and propagators ProductEffect(old domains, xs, res) gives, each join a ring-mul that narrows as MulRule |
| Compiler.Config.SumSplit | finitedomain-master/finitedomain-master/src/propagator.js:723-734 | the split branch of addSum: the first half, the second half into the next free index and the final plus leave exactly the temporaries and the rings of SplitJoins |
| Compiler.Config.ProductSplit | finitedomain-master/finitedomain-master/src/propagator.js:766-777 | the split branch of addProduct: the tables become exactly those of ProductEffect |
| Compiler.Config.CompileLtLteAt | finitedomain-master/finitedomain-master/src/config.js:732-773 | the table becomes LtLteAt's and the constraint is dropped exactly when it says; a drop lists both variables as constrained away |
| Compiler.Config.CompileGtGteAt | finitedomain-master/finitedomain-master/src/config.js:774-814 | the same with GtGteAt |
| Compiler.Config.CompileEqAt | finitedomain-master/finitedomain-master/src/config.js:815-831 | the table changes as CompileEq says; a drop lists both variables as constrained away |
| Compiler.Config.CompileNeqAt | finitedomain-master/finitedomain-master/src/config.js:832-849 | the table changes as CompileNeq says; a drop lists both variables as constrained away |
| Compiler.Config.CompileReifierAt | finitedomain-master/finitedomain-master/src/config.js:850-918 | an unknown op is an error with nothing changed, no fold changes nothing, a fold writes its one slot and lists the recorded variables as constrained away |
| Compiler.Config.FoldOperandDomains | finitedomain-master/finitedomain-master/src/config.js:1039-1045 | the loop computes FoldDoms over the operand domains |
| Compiler.Config.SplitConstants | finitedomain-master/finitedomain-master/src/config.js:1050-1064 | the loop computes the unsolved operands and the folded constant |
| Compiler.Config.ReplaceConstants | finitedomain-master/finitedomain-master/src/config.js:1050-1078 | an extra constant operand is interned exactly when no operand is left or the total is not the identity; the new list is the unsolved operands plus the cached variable of the total, which is either the one already cached (nothing else changes) or a new variable holding only the total |
| Compiler.Config.SettleSumProduct | finitedomain-master/finitedomain-master/src/config.js:1081-1098 | the table and constrained-away list change as Settle says |
| Compiler.Config.BoundSumProductResult | finitedomain-master/finitedomain-master/src/config.js:1037-1047 | the result domain becomes exactly as BoundResult says |
| Compiler.Config.RewriteSumProduct | finitedomain-master/finitedomain-master/src/config.js:1037-1078 | the table and operand list become exactly RewriteOperands's: the result bounded by the operand fold, the unsolved operands followed by constantCache[total] exactly when nothing is left or the total is not the identity; the only error is a taken anonymous name, after the bound |
| Compiler.Config.CompileSumProductAt | finitedomain-master/finitedomain-master/src/config.js:1027-1101 | exactly Settle on the list and table RewriteOperands gives: the returned list, the drop flag, the table and the constrained-away list; the result domain ends within the fold of the operand domains |
| Compiler.Config.SolvedAtCompileTime | finitedomain-master/finitedomain-master/src/config.js:714-731 | dispatches to the folds above and carries each one's exact effect: the table, the drop flag and the constrained-away list for eq, neq, lt/lte, gt/gte, the reifier and sum/product; other names change nothing |
| Compiler.Config.ResolveResult | finitedomain-master/finitedomain-master/src/config.js:589-601 | an absent result gets a fresh anonymous variable (0..1 for a reifier, SUB..SUP otherwise), a number the index of its cached constant, a name its index or an undeclared-var error with nothing changed |
| Compiler.Config.PrepareResult | finitedomain-master/finitedomain-master/src/config.js:570-620 | an unknown name is UNKNOWN_PROPAGATOR with nothing changed; a result op gets its result name written into slot 2, a sum/product its result index as param, a reifier its op; a given result name is kept as is |
| Compiler.Config.CompileConstants | finitedomain-master/finitedomain-master/src/config.js:645-652 | each numeric operand is replaced by the name of its interned constant variable, every other operand is kept |
| Compiler.Config.VarNamesToIndexes | finitedomain-master/finitedomain-master/src/config.js:661-671 | each name becomes an index of a variable with that name |
| Compiler.Config.RecordConstraint | finitedomain-master/finitedomain-master/src/config.js:627-632 | the constraint is appended to allConstraints exactly when it was not solved at compile time |
| Compiler.Config.AppendConstraint | finitedomain-master/finitedomain-master/src/config.js:631 | a well-formed constraint is appended to allConstraints as its last element and the configuration invariant is kept |
| Compiler.Config.Dedupe | finitedomain-master/finitedomain-master/src/config.js:682-700 | a new key records the result name (or true) and answers false; a result-less repeat answers true and changes nothing, or is an error when a result is given; a repeat of a key that had a result is an error when no result is given, and otherwise answers true after an eq constraint of the new and the recorded result, whose key is then in the hash |
| Compiler.Config.AddConstraint | finitedomain-master/finitedomain-master/src/config.js:561-635 | an unknown name is an error with nothing changed; domains only shrink, names, keys and constraints are only appended; a returned result name exists exactly for the ops that have one and is declared; a constraint over names only leaves its key in the hash |
| Compiler.Config.CompileAndAdd | finitedomain-master/finitedomain-master/src/config.js:622-634 | a successful call returns the result name it was given and only appends constraints, names and keys; over names only, its key is then in the hash |
| Compiler.Config.AddCompiled | finitedomain-master/finitedomain-master/src/config.js:623-632 | a repeated result-less key that succeeds changes nothing; a new key is recorded with its entry and anything appended is this constraint; the key is in the hash afterwards |
| Compiler.Config.IndexAndRecord | finitedomain-master/finitedomain-master/src/config.js:625-632 | a constraint is appended exactly when it is not dropped |
| Compiler.Config.GeneratePropagator | finitedomain-master/finitedomain-master/src/config.js:1132-1186 | an unexpected name is an error with nothing changed; comparisons and distinct change the tables exactly as their builders say; the arithmetic ops exactly as ArithEffect, the reifier exactly as its ReifiedPlan, sum and product exactly as SplitJoins/ProductEffect (EqRule for one operand, the require-vars error for none) |
| Compiler.Config.GenerateWithResult | finitedomain-master/finitedomain-master/src/config.js:1138-1164 | the ops with a result variable: arithmetic exactly as ArithEffect, sum and product exactly as SplitJoins/ProductEffect, the reifier exactly as its ReifiedPlan |
| Compiler.Config.GenerateComparison | finitedomain-master/finitedomain-master/src/config.js:1165-1182 | the comparison cases, each exactly as BinEffect says |
| Compiler.Config.GenerateArithmetic | finitedomain-master/finitedomain-master/src/config.js:1138-1152 | plus, min, ring-mul, ring-div and mul leave exactly the domains and appended propagators of ArithEffect, which only the two products narrow |
| Compiler.Config.GenerateSumProduct | finitedomain-master/finitedomain-master/src/config.js:1154-1158 | no operand is the require-vars error with nothing changed; one is EqRule with the result index; a sum of two or more appends exactly the temporaries and plus rings of SplitJoins, a product exactly ProductEffect; the only other error is a taken anonymous name |
| Compiler.Config.GeneratePropagators | finitedomain-master/finitedomain-master/src/config.js:1109-1125 | the propagator list is rebuilt from allConstraints alone, so an empty constraint list gives no propagators |
| Compiler.Config.GenerateMarkovs | finitedomain-master/finitedomain-master/src/config.js:1188-1198 | the options up to the first undeclared or markov variable are passed over; an undeclared one is an error, and only the first markov variable gets a propagator |
| Compiler.Config.PopulateVarPropHash | finitedomain-master/finitedomain-master/src/config.js:513-524 | the table has one list per variable and is the adjacency table of the propagators |
| Compiler.Config.PopulateVarStrategyListHash | finitedomain-master/finitedomain-master/src/config.js:1200-1216 | each level with a priority list gets the priority map of that list's indexes, and nothing else of any level changes |
| Compiler.Config.Init | finitedomain-master/finitedomain-master/src/config.js:1223-1241 | after propagator generation the adjacency table and the priority maps are built as above |
| Compiler.Config.SetVarValueStrat | finitedomain-master/finitedomain-master/src/config.js:400-434 | the options are stored for the target, for markov with the matrix expanded and checked row by row; the outcome is ValueStratOutcome |
| Compiler.Config.SetVarStratOverrides | finitedomain-master/finitedomain-master/src/config.js:390-398 | the entries are stored in order up to and including the first refused one, whose error is returned |
| Compiler.Config.SetOption | finitedomain-master/finitedomain-master/src/config.js:350-465 | deprecated, removed and unknown names are errors with nothing changed; varStrategy is checked then replaces the level chain; valueStrategy and targets replace their field (empty targets refused); rng and timeoutCallback change nothing modelled |

## Left out

- The packed domain encodings of `domain.js` are not modelled; a domain is a set of naturals. `domain_plus`, `domain_mul` and their inverses are given set definitions clipped to SUP; only subset facts about them are used.
- Propagator step functions are tags: no propagation at search time is modelled.
- Search, distribution, markov sampling and the solver are not part of this model.
- `config_clone`, `config_setDefaults`, `config_addVarDomain` with its override flag, and the `config_setOptions` shim are not modelled.
- The rng option (`Function(rngCode)`, `Math.random`) and the timeout callback are not modelled: `SetOption` accepts them and changes nothing the model keeps.
- A function-valued markov `boolVarName` is not modelled: it is called with user code; a row's boolVarName is absent, a name, or some other value (refused).
- The legacy `varNames` conversion with its console warning in `config_generatePropagators` is left out.
- The name trie is a `map<string, nat>`.
- `varDistOptions` is a sequence of (name, options) pairs in insertion order; a JavaScript object visits integer-like keys first, which the model does not reproduce.
- `_varToPropagators` entries for variables that no propagator reads are empty lists here, where the source leaves them undefined.
- Source `ASSERT`s are preconditions: non-empty domains, ascending range bounds (A_RANGES_SHOULD_ASCEND, config.js:210, as `lo <= hi`), three operands for the ops with a result variable (MISSING_RESULT_VAR, config.js:580, as `|varNames| == 3`), declared operand names, a target for `varValueStrat`, a new key per variable option, declared priority-list names. The two dedupe refusals that users can reach, the plain throw at config.js:687 and the ASSERT at config.js:693, are modelled as errors.
- Operands are names, naturals or absent; a result operand of any other type (which throws in the source) cannot be written.
- Product totals are exact naturals; JavaScript's floating-point products above 2^53 are not modelled.
- Domains are not required to lie within SUB..SUP: `AddVarRange`, `AddVarConstant` and their anonymous forms take any naturals, and a folded constant total above SUP is declared as it is; the source's SUB/SUP `ASSERT`s (config.js:266-267) only run in debug builds and do not stop it either.
- Compiler.Config.AddVar: numeric names are refused only up to magnitude 2^53 (sixteen digits). The source also refuses a longer digit string (up to 21 digits) that equals JavaScript's shortest rendering of the double it parses to, such as "10000000000000000"; the model accepts those names, because it has no model of double rounding or of that rendering.
- Names.RenderedNumberIsNumeric: stated for numbers up to 2^53 only, for the same reason.
- Compiler.Config.GeneratePropagators: states the rebuild and the empty case, not the exact list of propagators for a non-empty constraint list.
- Compiler.Config.AddConstraint: states the invariants kept, the result name and the recorded key, not the exact tables after a constraint; those are stated by the methods it chains (CompileConstants, Dedupe, SolvedAtCompileTime, RecordConstraint).
