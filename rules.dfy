/**
 * The case splits the compiler applies to the domains of a constraint's
 * operands, as pure functions of those domains. The Config methods write
 * their results back into the initial domains; the contracts here say what
 * the rewrites mean: which candidate solutions survive and when a dropped
 * constraint is already entailed.
 */
module Rules {
  import opened Base
  import opened Domain
  import opened Records

  /** The comparisons a reifier can reflect, by their names in the source. */
  predicate KnownOp(op: string)
  {
    op == "lt" || op == "lte" || op == "gt" || op == "gte" || op == "eq" || op == "neq"
  }

  /** What `A op B` means for two values; false for an unknown op. */
  predicate Holds(op: string, a: int, b: int)
  {
    if op == "lt" then a < b
    else if op == "lte" then a <= b
    else if op == "gt" then a > b
    else if op == "gte" then a >= b
    else if op == "eq" then a == b
    else if op == "neq" then a != b
    else false
  }

  // ---------------------------------------------------------------------------
  // Binary builders (propagator_addEq/Lt/Lte/Neq): new domains for the two
  // operands and whether a runtime propagator is still needed.
  // ---------------------------------------------------------------------------

  datatype Narrowed = Narrowed(a: Dom, b: Dom, keep: bool)

  /** propagator_addLt on the domains A (left) and B (right). */
  function LtRule(A: Dom, B: Dom): (r: Narrowed)
    ensures r.a <= A && r.b <= B
    ensures forall x, y :: x in A && y in B && x < y ==> x in r.a && y in r.b
    ensures !r.keep ==> forall x, y :: x in r.a && y in r.b ==> x < y
    ensures Max(A) < Min(B) ==> r == Narrowed(A, B, false)
    ensures Max(A) >= Min(B) && Min(A) >= Max(B) ==> r == Narrowed({}, {}, false)
    ensures Max(A) >= Min(B) && Min(A) < Max(B) ==>
              r.keep && r.a == (set x | x in A && x < Max(B)) && r.b == (set y | y in B && y > Min(A))
  {
    var maxA, minB := Max(A), Min(B);
    if maxA < minB then Narrowed(A, B, false)
    else
      var minA, maxB := Min(A), Max(B);
      if minA >= maxB then Narrowed({}, {}, false)
      else Narrowed(if maxA >= maxB then RemoveGte(A, maxB) else A,
                    if minB <= minA then RemoveLte(B, minA) else B,
                    true)
  }

  /** propagator_addLte on the domains A (left) and B (right). */
  function LteRule(A: Dom, B: Dom): (r: Narrowed)
    ensures r.a <= A && r.b <= B
    ensures forall x, y :: x in A && y in B && x <= y ==> x in r.a && y in r.b
    ensures !r.keep ==> forall x, y :: x in r.a && y in r.b ==> x <= y
    ensures Max(A) < Min(B) ==> r == Narrowed(A, B, false)
    ensures Max(A) >= Min(B) && Min(A) > Max(B) ==> r == Narrowed({}, {}, false)
    ensures Max(A) >= Min(B) && Min(A) <= Max(B) ==>
              r.keep && r.a == (set x | x in A && x <= Max(B)) && r.b == (set y | y in B && y >= Min(A))
  {
    var maxA, minB := Max(A), Min(B);
    if maxA < minB then Narrowed(A, B, false)
    else
      var minA, maxB := Min(A), Max(B);
      if minA > maxB then Narrowed({}, {}, false)
      else Narrowed(if maxA >= maxB then RemoveGte(A, maxB + 1) else A,
                    if minB <= minA then RemoveLte(B, minA - 1) else B,
                    true)
  }

  /**
   * propagator_addEq. A solved side is copied over the other one without
   * intersecting, so no common value is lost but the copy may hold a value
   * the other side did not have (see EqRuleCopiesSolvedSide).
   */
  function EqRule(A: Dom, B: Dom): (r: Narrowed)
    ensures forall x :: x in A && x in B ==> x in r.a && x in r.b
    ensures !r.keep <==> IsSolved(A) || IsSolved(B)
    ensures !r.keep ==> r.a == r.b && IsSolved(r.a)
    ensures IsSolved(A) ==> r == Narrowed(A, A, false)
    ensures !IsSolved(A) && IsSolved(B) ==> r == Narrowed(B, B, false)
    ensures r.keep ==> r.a == A * B && r.b == A * B
  {
    if GetValue(A) >= 0 then Narrowed(A, A, false)
    else if GetValue(B) >= 0 then Narrowed(B, B, false)
    else Narrowed(A * B, A * B, true)
  }

  /** A solved left side replaces the right side even when the two are disjoint. */
  lemma EqRuleCopiesSolvedSide()
    ensures EqRule({5}, {1}) == Narrowed({5}, {5}, false)
    ensures !(EqRule({5}, {1}).b <= {1})
  {
    assert GetValue({5}) == 5;
  }

  /**
   * propagator_addNeq. Only a solved LEFT side is folded: the second test
   * reads the left domain again, so a solved right side never is.
   */
  function NeqRule(A: Dom, B: Dom): (r: Narrowed)
    ensures r.a <= A && r.b <= B
    ensures forall x, y :: x in A && y in B && x != y ==> x in r.a && y in r.b
    ensures !r.keep ==> forall x, y :: x in r.a && y in r.b ==> x != y
    ensures r.keep <==> !IsSolved(A) && A * B != {}
  {
    var vA := GetValue(A);
    if vA >= 0 then Narrowed(A, RemoveValue(B, vA), false)
    else
      var vB := GetValue(A);
      if vB >= 0 then Narrowed(RemoveValue(A, vB), B, false)
      else if A * B == {} then
        assert forall x, y :: x in A && y in B && x == y ==> x in A * B;
        Narrowed(A, B, false)
      else Narrowed(A, B, true)
  }

  /** With only the right side solved, neq keeps a propagator and narrows nothing. */
  lemma NeqRuleIgnoresSolvedRight(A: Dom, B: Dom)
    requires IsSolved(B) && !IsSolved(A) && A * B != {}
    ensures NeqRule(A, B) == Narrowed(A, B, true)
  {
  }

  // ---------------------------------------------------------------------------
  // propagator_mulConstraintResolved, over the whole domain table because the
  // source re-reads a slot it has just written.
  // ---------------------------------------------------------------------------

  datatype MulOutcome = MulOutcome(doms: seq<Dom>, resolved: bool)

  function MulRule(doms: seq<Dom>, ia: nat, ib: nat, ic: nat): (r: MulOutcome)
    requires ia < |doms| && ib < |doms| && ic < |doms|
    ensures |r.doms| == |doms|
    ensures forall i :: 0 <= i < |doms| ==> r.doms[i] <= doms[i]
    ensures forall i :: 0 <= i < |doms| && i != ia && i != ib && i != ic ==> r.doms[i] == doms[i]
  {
    var A, B, C := doms[ia], doms[ib], doms[ic];
    var maxA, maxB := Max(A), Max(B);
    var vA, vB, vC := GetValue(A), GetValue(B), GetValue(C);
    if vA >= 0 then
      var a: nat := vA;
      if vB >= 0 then
        var b: nat := vB;
        MulOutcome(doms[ic := C * CreateValue(a * b)], true)
      else if a == 0 then
        MulOutcome(doms[ic := C * CreateValue(0)], true)
      else if vC >= 0 then
        var c: nat := vC;
        if c == 0 then
          MulOutcome(if a != 0 then doms[ib := B * CreateValue(0)] else doms, true)
        else
          MulOutcome(doms[ib := B * (if a % c != 0 then Empty() else CreateValue(a / c))], true)
      else
        var d1 := doms[ic := C * MulByValue(B, a)];
        MulOutcome(d1[ib := if maxB == 0 || a == 0 then B else B * InvMulValue(d1[ic], a)], false)
    else if vB >= 0 then
      var b: nat := vB;
      if b == 0 then
        MulOutcome(doms[ic := C * CreateValue(0)], true)
      else if vC >= 0 then
        var c: nat := vC;
        if c == 0 then
          MulOutcome(if b != 0 then doms[ia := A * CreateValue(0)] else doms, true)
        else
          MulOutcome(doms[ia := A * (if c % b != 0 then Empty() else CreateValue(c / b))], true)
      else
        var d1 := doms[ic := C * MulByValue(A, b)];
        MulOutcome(d1[ia := if maxA == 0 || b == 0 then A else A * InvMulValue(d1[ic], b)], false)
    else
      var d1 := doms[ia := A * InvMul(C, B)];
      var d2 := d1[ib := B * InvMul(C, A)];
      MulOutcome(d2[ic := C * Mul(A, B)], false)
  }

  /**
   * propagator_mulConstraintResolved reports the product resolved exactly
   * when a factor is solved and either both are, one is zero, or the product
   * is solved.
   */
  lemma MulRuleResolved(doms: seq<Dom>, ia: nat, ib: nat, ic: nat)
    requires ia < |doms| && ib < |doms| && ic < |doms|
    ensures var A, B, C, m := doms[ia], doms[ib], doms[ic], MulRule(doms, ia, ib, ic);
            m.resolved <==> (IsSolved(A) || IsSolved(B)) && ((IsSolved(A) && IsSolved(B)) || A == {0} || B == {0} || IsSolved(C))
  {
  }

  /** A factor solved to zero forces the product to zero; two solved factors fix it. */
  lemma MulRuleSolvedFactors(doms: seq<Dom>, ia: nat, ib: nat, ic: nat)
    requires ia < |doms| && ib < |doms| && ic < |doms|
    ensures var A, B, C, m := doms[ia], doms[ib], doms[ic], MulRule(doms, ia, ib, ic);
            A == {0} || B == {0} ==> m.doms == doms[ic := C * {0}]
    ensures var A, B, C, m := doms[ia], doms[ib], doms[ic], MulRule(doms, ia, ib, ic);
            IsSolved(A) && IsSolved(B) ==> m.doms == doms[ic := C * {GetValue(A) * GetValue(B)}]
  {
  }

  /** One solved non-zero factor and a solved product fix the other factor (see QuotientCase). */
  lemma MulRuleSolvedProduct(doms: seq<Dom>, ia: nat, ib: nat, ic: nat)
    requires ia < |doms| && ib < |doms| && ic < |doms|
    ensures var A, B, C, m := doms[ia], doms[ib], doms[ic], MulRule(doms, ia, ib, ic);
            IsSolved(A) && A != {0} && !IsSolved(B) && C == {0} ==> m.doms == doms[ib := B * {0}]
    ensures var A, B, C, m := doms[ia], doms[ib], doms[ic], MulRule(doms, ia, ib, ic);
            QuotientCase(A, B, C) ==>
              m.doms == doms[ib := B * (if GetValue(A) % GetValue(C) == 0 then {GetValue(A) / GetValue(C)} else {})]
    ensures var A, B, C, m := doms[ia], doms[ib], doms[ic], MulRule(doms, ia, ib, ic);
            !IsSolved(A) && IsSolved(B) && B != {0} && IsSolved(C) ==>
              m.doms == doms[ia := A * (if GetValue(C) % GetValue(B) == 0 then {GetValue(C) / GetValue(B)} else {})]
  {
  }

  /** One solved non-zero factor and an open product scale each other; two open factors bound all three. */
  lemma MulRuleOpenProduct(doms: seq<Dom>, ia: nat, ib: nat, ic: nat)
    requires ia < |doms| && ib < |doms| && ic < |doms|
    ensures var A, B, C, m := doms[ia], doms[ib], doms[ic], MulRule(doms, ia, ib, ic);
            IsSolved(A) && A != {0} && !IsSolved(B) && !IsSolved(C) ==>
              var a := GetValue(A); var c := C * MulByValue(B, a);
              m.doms == doms[ic := c][ib := B * InvMulValue(c, a)]
    ensures var A, B, C, m := doms[ia], doms[ib], doms[ic], MulRule(doms, ia, ib, ic);
            !IsSolved(A) && IsSolved(B) && B != {0} && !IsSolved(C) ==>
              var b := GetValue(B); var c := C * MulByValue(A, b);
              m.doms == doms[ic := c][ia := A * InvMulValue(c, b)]
    ensures var A, B, C, m := doms[ia], doms[ib], doms[ic], MulRule(doms, ia, ib, ic);
            !IsSolved(A) && !IsSolved(B) ==>
              m.doms == doms[ia := A * InvMul(C, B)][ib := B * InvMul(C, A)][ic := C * Mul(A, B)]
  {
    MaxZeroSolved(doms[ia]);
    MaxZeroSolved(doms[ib]);
  }

  /** Only {0} has maximum 0, so the source's maxB === 0 test never fires on an unsolved B. */
  lemma MaxZeroSolved(d: Dom)
    ensures Max(d) == 0 ==> d == {0}
  {
    if Max(d) == 0 {
      forall y | y in d ensures y == 0 { }
    }
  }

  /**
   * The quotient branch below (A solved to a non-zero value, B unsolved, C
   * solved to a non-zero value) is the one case in which a product triple
   * can be lost.
   */
  predicate QuotientCase(A: Dom, B: Dom, C: Dom)
  {
    IsSolved(A) && A != {0} && !IsSolved(B) && IsSolved(C) && C != {0}
  }

  /** An exact product divides back: c == a * b gives c / a == b with no remainder. */
  lemma DivExact(a: nat, b: nat, c: nat)
    requires a > 0 && a * b == c
    ensures c % a == 0 && c / a == b
  {
    var q, r := c / a, c % a;
    assert a * q + r == c && 0 <= r < a;
    assert a * (b - q) == r by { assert a * (b - q) == a * b - a * q; }
    if b - q >= 1 {
      MulAtLeast(a, b - q);
    } else if b - q <= -1 {
      MulAtLeast(a, q - b);
    }
  }

  lemma MulAtLeast(a: nat, k: int)
    requires k >= 1
    ensures a * k >= a
  {
    assert a * k == a + a * (k - 1);
  }

  /** One operand solved to a > 0: the scaled-result branch keeps the triple. */
  lemma MulByValueKeeps(B: Dom, C: Dom, a: nat, b: nat, c: nat)
    requires a > 0 && b in B && c in C && a * b == c && c <= SUP
    ensures c in C * MulByValue(B, a)
    ensures b in B * InvMulValue(C * MulByValue(B, a), a)
  {
    assert b * a == c;
    DivExact(a, b, c);
    assert c in C * MulByValue(B, a);
  }

  /** Neither operand solved: the bounds branch keeps the triple. */
  lemma MulBoundsKeep(A: Dom, B: Dom, C: Dom, a: nat, b: nat, c: nat)
    requires a in A && b in B && c in C && a * b == c && a <= SUP && b <= SUP && c <= SUP
    ensures a in A * InvMul(C, B) && b in B * InvMul(C, A) && c in C * Mul(A, B)
  {
    assert b * a == c;
  }

  /**
   * Outside the quotient case, every triple a * b == c of the three domains
   * survives (values up to SUP, the bound the domain arithmetic clips at).
   */
  lemma MulRuleSound(doms: seq<Dom>, ia: nat, ib: nat, ic: nat, a: nat, b: nat, c: nat)
    requires ia < |doms| && ib < |doms| && ic < |doms| && ia != ib && ib != ic && ia != ic
    requires a in doms[ia] && b in doms[ib] && c in doms[ic] && a * b == c
    requires a <= SUP && b <= SUP && c <= SUP
    requires !QuotientCase(doms[ia], doms[ib], doms[ic])
    ensures var r := MulRule(doms, ia, ib, ic).doms; a in r[ia] && b in r[ib] && c in r[ic]
  {
    var A, B, C := doms[ia], doms[ib], doms[ic];
    if IsSolved(A) && !IsSolved(B) && a != 0 && !IsSolved(C) {
      MulByValueKeeps(B, C, a, b, c);
    } else if !IsSolved(A) && IsSolved(B) && b != 0 && IsSolved(C) {
      assert b * a == c;
      DivExact(b, a, c);
    } else if !IsSolved(A) && IsSolved(B) && b != 0 {
      assert b * a == c;
      MulByValueKeeps(A, C, b, a, c);
    } else if !IsSolved(A) && !IsSolved(B) {
      MulBoundsKeep(A, B, C, a, b, c);
    }
  }

  /**
   * With A = {2} and C = {6} the quotient is taken as A / C rather than
   * C / A, so B = {3} is emptied although 2 * 3 = 6.
   */
  lemma MulRuleQuotientOrder()
    ensures MulRule([{2}, {3, 4}, {6}], 0, 1, 2).doms[1] == {}
  {
    assert GetValue({2}) == 2;
    assert GetValue({6}) == 6;
    assert GetValue({3, 4}) < 0 by { assert |{3, 4}| == 2; }
  }

  // ---------------------------------------------------------------------------
  // propagator_addReified: which rewrite applies, as a plan over the three
  // operand slots. gt and gte are lt and lte with the operands swapped.
  // ---------------------------------------------------------------------------

  datatype Slot = Left | Right | Result

  /** The plain builders a reifier can be rewritten into. */
  datatype BinKind = BEq | BNeq | BLt | BGt | BLte | BGte

  predicate HoldsKind(k: BinKind, x: int, y: int)
  {
    match k
    case BEq => x == y
    case BNeq => x != y
    case BLt => x < y
    case BGt => x > y
    case BLte => x <= y
    case BGte => x >= y
  }

  datatype Plan =
    | Done
    | SetDom(slot: Slot, d: Dom)
    | Build(kind: BinKind, x: Slot, y: Slot)
    | AppendReified(x: Slot, y: Slot, opName: string, nopName: string,
                    opFunc: Fn, nopFunc: Fn, opReject: Fn, nopReject: Fn)
    | Fail

  function SwapSlot(s: Slot): Slot
  {
    match s
    case Left => Right
    case Right => Left
    case Result => Result
  }

  function SwapPlan(p: Plan): Plan
  {
    match p
    case SetDom(s, d) => SetDom(SwapSlot(s), d)
    case Build(k, x, y) => Build(k, SwapSlot(x), SwapSlot(y))
    case AppendReified(x, y, o, n, f, g, rf, rg) => AppendReified(SwapSlot(x), SwapSlot(y), o, n, f, g, rf, rg)
    case _ => p
  }

  /** The plan for reifying `A op B` into the boolean C. */
  function ReifiedPlan(op: string, A: Dom, B: Dom, C: Dom): (p: Plan)
    ensures p.Fail? <==> !KnownOp(op) && !(IsSolved(A) && IsSolved(B) && (IsZero(C) || HasNoZero(C)))
    ensures p.Build? ==> p.x != p.y
    decreases if op == "gt" || op == "gte" then 1 else 0
  {
    if GetValue(A) >= 0 && GetValue(B) >= 0 && (IsZero(C) || HasNoZero(C)) then Done
    else if op == "eq" then EqPlan(A, B, C)
    else if op == "neq" then NeqPlan(A, B, C)
    else if op == "lt" then LtPlan(A, B, C)
    else if op == "lte" then LtePlan(A, B, C)
    else if op == "gt" then SwapPlan(ReifiedPlan("lt", B, A, C))
    else if op == "gte" then SwapPlan(ReifiedPlan("lte", B, A, C))
    else Fail
  }

  /** The "eq" case of the reifier, once it is not already solved. */
  function EqPlan(A: Dom, B: Dom, C: Dom): (p: Plan)
    ensures !p.Fail? && (p.Build? ==> p.x != p.y)
  {
    var vA, vB := GetValue(A), GetValue(B);
    var truthy := HasNoZero(C);
    var solvedC := IsZero(C) || truthy;
    var maxA, maxB, maxC := Max(A), Max(B), Max(C);
    if solvedC then
      if vA >= 0 then SetDom(Right, if truthy then A * B else RemoveValue(B, vA))
      else if vB >= 0 then SetDom(Left, if truthy then A * B else RemoveValue(A, vB))
      else if truthy then Build(BEq, Left, Right) else Build(BNeq, Left, Right)
    else if vA >= 0 && vB >= 0 then SetDom(Result, ResolveAsBooly(C, vA == vB))
    else if maxC <= 1 && maxA <= 1 && maxB == 1 && vA == 0 then Build(BNeq, Right, Result)
    else if maxC <= 1 && maxA <= 1 && maxB == 1 && vA == 1 then Build(BEq, Right, Result)
    else if maxC <= 1 && maxB <= 1 && maxA == 1 && vB == 0 then Build(BNeq, Left, Result)
    else if maxC <= 1 && maxB <= 1 && maxA == 1 && vB == 1 then Build(BEq, Left, Result)
    else AppendReified(Left, Right, "eq", "neq", EqStepBare, NeqStepBare, EqStepWouldReject, NeqStepWouldReject)
  }

  /** The "neq" case of the reifier, once it is not already solved. */
  function NeqPlan(A: Dom, B: Dom, C: Dom): (p: Plan)
    ensures !p.Fail? && (p.Build? ==> p.x != p.y)
  {
    var vA, vB := GetValue(A), GetValue(B);
    var truthy := HasNoZero(C);
    var solvedC := IsZero(C) || truthy;
    var maxA, maxB, maxC := Max(A), Max(B), Max(C);
    if solvedC then
      if vA >= 0 then SetDom(Right, if truthy then RemoveValue(B, vA) else A)
      else if vB >= 0 then SetDom(Left, if truthy then RemoveValue(A, vB) else B)
      else if truthy then Build(BNeq, Left, Right) else Build(BEq, Left, Right)
    else if vA >= 0 && vB >= 0 then SetDom(Result, ResolveAsBooly(C, vA != vB))
    else if maxC <= 1 && maxA <= 1 && maxB == 1 && vA == 0 then Build(BEq, Right, Result)
    else if maxC <= 1 && maxA <= 1 && maxB == 1 && vA == 1 then Build(BNeq, Right, Result)
    else if maxC <= 1 && maxB <= 1 && maxA == 1 && vB == 0 then Build(BEq, Left, Result)
    else if maxC <= 1 && maxB <= 1 && maxA == 1 && vB == 1 then Build(BNeq, Left, Result)
    else AppendReified(Left, Right, "neq", "eq", NeqStepBare, EqStepBare, NeqStepWouldReject, EqStepWouldReject)
  }

  /** The "lt" case of the reifier, once it is not already solved. */
  function LtPlan(A: Dom, B: Dom, C: Dom): (p: Plan)
    ensures !p.Fail? && (p.Build? ==> p.x != p.y)
  {
    var vA, vB := GetValue(A), GetValue(B);
    var truthy := HasNoZero(C);
    var solvedC := IsZero(C) || truthy;
    var minA, maxA, minB, maxB, maxC := Min(A), Max(A), Min(B), Max(B), Max(C);
    if solvedC then
      if truthy then (if maxA < minB then Done else Build(BLt, Left, Right))
      else if minA >= maxB then Done else Build(BGte, Left, Right)
    else if maxA < minB then SetDom(Result, ResolveAsBooly(C, true))
    else if minA >= maxB then SetDom(Result, ResolveAsBooly(C, false))
    else if maxC <= 1 && vA == 0 && maxB <= 1 then Build(BEq, Right, Result)
    else if maxC <= 1 && vB == 0 && maxA <= 1 then Build(BEq, Left, Result)
    else AppendReified(Left, Right, "lt", "gte", NeqStepBare, GteStepBare, LtStepWouldReject, GteStepWouldReject)
  }

  /** The "lte" case of the reifier, once it is not already solved. */
  function LtePlan(A: Dom, B: Dom, C: Dom): (p: Plan)
    ensures !p.Fail? && (p.Build? ==> p.x != p.y)
  {
    var vA, vB := GetValue(A), GetValue(B);
    var truthy := HasNoZero(C);
    var solvedC := IsZero(C) || truthy;
    var minA, maxA, minB, maxB, maxC := Min(A), Max(A), Min(B), Max(B), Max(C);
    if solvedC then
      if truthy then (if maxA <= minB then Done else Build(BLte, Left, Right))
      else if minA > maxB then Done else Build(BGt, Left, Right)
    else if maxA <= minB then SetDom(Result, ResolveAsBooly(C, true))
    else if minA > maxB then SetDom(Result, ResolveAsBooly(C, false))
    else if maxC <= 1 && vA == 1 && maxB <= 1 then Build(BEq, Right, Result)
    else if maxC <= 1 && vB == 1 && maxA <= 1 then Build(BEq, Left, Result)
    else AppendReified(Left, Right, "lte", "gt", LteStepBare, GtStepBare, LteStepWouldReject, GtStepWouldReject)
  }

  function SlotValue(s: Slot, a: nat, b: nat, c: nat): nat
  {
    match s
    case Left => a
    case Right => b
    case Result => c
  }

  /** The plan keeps the assignment (a, b, c): it survives a narrowing and satisfies a rewrite. */
  predicate Admits(p: Plan, a: nat, b: nat, c: nat)
  {
    match p
    case Done => true
    case SetDom(s, d) => SlotValue(s, a, b, c) in d
    case Build(k, x, y) => HoldsKind(k, SlotValue(x, a, b, c), SlotValue(y, a, b, c))
    case AppendReified(_, _, _, _, _, _, _, _) => true
    case Fail => false
  }

  lemma SwapPlanAdmits(p: Plan, a: nat, b: nat, c: nat)
    ensures Admits(SwapPlan(p), a, b, c) == Admits(p, b, a, c)
  {
  }

  /**
   * Every rewrite of a reifier keeps every assignment with C != 0 exactly
   * when `A op B` holds: a narrowed slot still holds its value and a
   * constraint it is rewritten into is satisfied.
   */
  lemma {:induction false} ReifiedPlanSound(op: string, A: Dom, B: Dom, C: Dom, a: nat, b: nat, c: nat)
    requires KnownOp(op)
    requires a in A && b in B && c in C && (c != 0 <==> Holds(op, a, b))
    ensures Admits(ReifiedPlan(op, A, B, C), a, b, c)
    decreases if op == "gt" || op == "gte" then 1 else 0
  {
    if !(GetValue(A) >= 0 && GetValue(B) >= 0 && (IsZero(C) || HasNoZero(C))) {
      if op == "eq" {
        EqPlanSound(A, B, C, a, b, c);
      } else if op == "neq" {
        NeqPlanSound(A, B, C, a, b, c);
      } else if op == "lt" {
        LtPlanSound(A, B, C, a, b, c);
      } else if op == "lte" {
        LtePlanSound(A, B, C, a, b, c);
      } else {
        var op' := if op == "gt" then "lt" else "lte";
        ReifiedPlanSound(op', B, A, C, b, a, c);
        SwapPlanAdmits(ReifiedPlan(op', B, A, C), a, b, c);
      }
    }
  }

  lemma EqPlanSound(A: Dom, B: Dom, C: Dom, a: nat, b: nat, c: nat)
    requires a in A && b in B && c in C && (c != 0 <==> a == b)
    ensures Admits(EqPlan(A, B, C), a, b, c)
  {
  }

  lemma NeqPlanSound(A: Dom, B: Dom, C: Dom, a: nat, b: nat, c: nat)
    requires a in A && b in B && c in C && (c != 0 <==> a != b)
    ensures Admits(NeqPlan(A, B, C), a, b, c)
  {
  }

  lemma LtPlanSound(A: Dom, B: Dom, C: Dom, a: nat, b: nat, c: nat)
    requires a in A && b in B && c in C && (c != 0 <==> a < b)
    ensures Admits(LtPlan(A, B, C), a, b, c)
  {
  }

  lemma LtePlanSound(A: Dom, B: Dom, C: Dom, a: nat, b: nat, c: nat)
    requires a in A && b in B && c in C && (c != 0 <==> a <= b)
    ensures Admits(LtePlan(A, B, C), a, b, c)
  {
  }
}
