/**
 * The compile-time folds of config.js (config_solvedAtCompileTime and its
 * helpers) as pure functions of the operand domains. A fold either drops the
 * constraint (`keep` false), in which case the narrowed domains entail it,
 * or keeps it; no fold ever loses a value that takes part in a solution.
 */
module Folds {
  import opened Base
  import opened Domain
  import opened Rules
  import opened Records

  /** A proper subset is strictly smaller. */
  lemma ProperSubsetSmaller(a: Dom, b: Dom)
    requires a <= b && a != b
    ensures |a| < |b|
  {
    var x :| x in b && x !in a;
    var rest := b - {x} - a;
    assert a + rest == b - {x};
    assert a * rest == {};
    assert |b - {x}| == |b| - 1;
  }

  /** A bound trim that changed something decreases the total size of the two domains. */
  lemma TrimShrinks(a': Dom, a: Dom, b': Dom, b: Dom)
    requires a' <= a && b' <= b && (a' != a || b' != b)
    ensures |a'| + |b'| < |a| + |b|
  {
    if a' != a { ProperSubsetSmaller(a', a); }
    if b' != b { ProperSubsetSmaller(b', b); }
  }

  // ---------------------------------------------------------------------------
  // lt / lte / gt / gte: a solved side trims the other, otherwise both bounds
  // are trimmed until nothing changes.
  // ---------------------------------------------------------------------------

  /** _config_solvedAtCompileTimeLtLte on the left domain L and the right domain R. */
  function CompileLtLte(op: string, L: Dom, R: Dom): (r: Narrowed)
    requires op == "lt" || op == "lte"
    ensures r.a <= L && r.b <= R
    ensures forall x, y :: x in L && y in R && Holds(op, x, y) ==> x in r.a && y in r.b
    ensures !r.keep ==> forall x, y :: x in r.a && y in r.b ==> Holds(op, x, y)
    ensures r.keep ==> !IsSolved(r.a) && !IsSolved(r.b)
    ensures r.keep && r.a != {} && r.b != {} ==> Holds(op, Max(r.a), Max(r.b)) && Holds(op, Min(r.a), Min(r.b))
    decreases |L| + |R|
  {
    var k := if op == "lt" then 0 else 1;
    var v := GetValue(L);
    if v >= 0 then Narrowed(L, RemoveLte(R, v - k), false)
    else
      var w := GetValue(R);
      if w >= 0 then Narrowed(RemoveGte(L, w + k), R, false)
      else
        var L' := RemoveGte(L, Max(R) + k);
        var R' := RemoveLte(R, Min(L) - k);
        if L' != L || R' != R then
          TrimShrinks(L', L, R', R);
          CompileLtLte(op, L', R')
        else Narrowed(L', R', true)
  }

  /** _config_solvedAtCompileTimeGtGte: the same with the relation pointing the other way. */
  function CompileGtGte(op: string, L: Dom, R: Dom): (r: Narrowed)
    requires op == "gt" || op == "gte"
    ensures r.a <= L && r.b <= R
    ensures forall x, y :: x in L && y in R && Holds(op, x, y) ==> x in r.a && y in r.b
    ensures !r.keep ==> forall x, y :: x in r.a && y in r.b ==> Holds(op, x, y)
    ensures r.keep ==> !IsSolved(r.a) && !IsSolved(r.b)
    ensures r.keep && r.a != {} && r.b != {} ==> Holds(op, Max(r.a), Max(r.b)) && Holds(op, Min(r.a), Min(r.b))
    decreases |L| + |R|
  {
    var k := if op == "gt" then 0 else 1;
    var v := GetValue(L);
    if v >= 0 then Narrowed(L, RemoveGte(R, v + k), false)
    else
      var w := GetValue(R);
      if w >= 0 then Narrowed(RemoveLte(L, w - k), R, false)
      else
        var L' := RemoveLte(L, Min(R) - k);
        var R' := RemoveGte(R, Max(L) + k);
        if L' != L || R' != R then
          TrimShrinks(L', L, R', R);
          CompileGtGte(op, L', R')
        else Narrowed(L', R', true)
  }

  /** With both operands the same variable, a trim that changes anything changes the domain written last. */
  lemma AliasedLtLteTrim(op: string, D: Dom)
    requires (op == "lt" || op == "lte") && GetValue(D) < 0
    ensures var k := if op == "lt" then 0 else 1;
            var L', R' := RemoveGte(D, Max(D) + k), RemoveLte(D, Min(D) - k);
            L' != D || R' != D ==> R' != D
  {
    if D != {} && op == "lt" {
      assert Min(D) in D && Min(D) !in RemoveLte(D, Min(D));
    }
  }

  /** The same for gt and gte. */
  lemma AliasedGtGteTrim(op: string, D: Dom)
    requires (op == "gt" || op == "gte") && GetValue(D) < 0
    ensures var k := if op == "gt" then 0 else 1;
            var L', R' := RemoveLte(D, Min(D) - k), RemoveGte(D, Max(D) + k);
            L' != D || R' != D ==> R' != D
  {
    if D != {} && op == "gt" {
      assert Max(D) in D && Max(D) !in RemoveGte(D, Max(D));
    }
  }

  /** The domain table and whether the constraint was dropped, after a fold that works on the table itself. */
  datatype Trimmed = Trimmed(doms: seq<Dom>, dropped: bool)

  /**
   * _config_solvedAtCompileTimeLtLte on the table: the same steps as
   * CompileLtLte, but reading and writing slots l and r, so that with l == r
   * the domain written second is the one that stays.
   */
  function LtLteAt(op: string, doms: seq<Dom>, l: nat, r: nat): (t: Trimmed)
    requires (op == "lt" || op == "lte") && l < |doms| && r < |doms|
    ensures |t.doms| == |doms|
    ensures forall i :: 0 <= i < |doms| ==> t.doms[i] <= doms[i]
    ensures forall i :: 0 <= i < |doms| && i != l && i != r ==> t.doms[i] == doms[i]
    decreases |doms[l]| + |doms[r]|
  {
    var k := if op == "lt" then 0 else 1;
    var L, R := doms[l], doms[r];
    var v := GetValue(L);
    if v >= 0 then Trimmed(doms[r := RemoveLte(R, v - k)], true)
    else
      var w := GetValue(R);
      if w >= 0 then Trimmed(doms[l := RemoveGte(L, w + k)], true)
      else
        var L', R' := RemoveGte(L, Max(R) + k), RemoveLte(R, Min(L) - k);
        var d := doms[l := L'][r := R'];
        if L' != L || R' != R then
          if l == r then
            AliasedLtLteTrim(op, L);
            ProperSubsetSmaller(R', R);
            LtLteAt(op, d, l, r)
          else
            TrimShrinks(L', L, R', R);
            LtLteAt(op, d, l, r)
        else Trimmed(d, false)
  }

  /** One trimming round of LtLteAt on two unsolved domains: it recurses on the trimmed table exactly when something changed. */
  lemma LtLteAtTrim(op: string, doms: seq<Dom>, l: nat, r: nat, L': Dom, R': Dom, d: seq<Dom>)
    requires (op == "lt" || op == "lte") && l < |doms| && r < |doms|
    requires GetValue(doms[l]) < 0 && GetValue(doms[r]) < 0
    requires L' == RemoveGte(doms[l], Max(doms[r]) + (if op == "lt" then 0 else 1))
    requires R' == RemoveLte(doms[r], Min(doms[l]) - (if op == "lt" then 0 else 1))
    requires d == doms[l := L'][r := R']
    ensures L' != doms[l] || R' != doms[r] ==>
              |d[l]| + |d[r]| < |doms[l]| + |doms[r]| && LtLteAt(op, doms, l, r) == LtLteAt(op, d, l, r)
    ensures L' == doms[l] && R' == doms[r] ==> LtLteAt(op, doms, l, r) == Trimmed(d, false)
  {
    var k := if op == "lt" then 0 else 1;
    var L, R := doms[l], doms[r];
    assert L' == RemoveGte(L, Max(R) + k) && R' == RemoveLte(R, Min(L) - k);
    if L' != L || R' != R {
      if l == r {
        AliasedLtLteTrim(op, L);
        ProperSubsetSmaller(R', R);
      } else {
        TrimShrinks(L', L, R', R);
      }
      assert LtLteAt(op, doms, l, r) == LtLteAt(op, d, l, r);
    } else {
      assert LtLteAt(op, doms, l, r) == Trimmed(d, false);
    }
  }

  /** With two different variables, the table fold is CompileLtLte on their domains. */
  lemma {:induction false} LtLteAtDistinct(op: string, doms: seq<Dom>, l: nat, r: nat)
    requires (op == "lt" || op == "lte") && l < |doms| && r < |doms| && l != r
    ensures var n := CompileLtLte(op, doms[l], doms[r]);
            LtLteAt(op, doms, l, r) == Trimmed(doms[l := n.a][r := n.b], !n.keep)
    decreases |doms[l]| + |doms[r]|, 1
  {
    var k := if op == "lt" then 0 else 1;
    var L, R := doms[l], doms[r];
    var v, w := GetValue(L), GetValue(R);
    if v >= 0 {
      assert doms[l := L] == doms;
    } else if w >= 0 {
      assert doms[l := RemoveGte(L, w + k)][r := R] == doms[l := RemoveGte(L, w + k)];
    } else {
      var L', R' := RemoveGte(L, Max(R) + k), RemoveLte(R, Min(L) - k);
      if L' != L || R' != R {
        TrimShrinks(L', L, R', R);
        LtLteAtDistinctStep(op, doms, l, r);
      }
    }
  }

  /** The recursive case of LtLteAtDistinct. */
  lemma {:induction false} LtLteAtDistinctStep(op: string, doms: seq<Dom>, l: nat, r: nat)
    requires (op == "lt" || op == "lte") && l < |doms| && r < |doms| && l != r
    requires GetValue(doms[l]) < 0 && GetValue(doms[r]) < 0
    requires var k := if op == "lt" then 0 else 1; var L, R := doms[l], doms[r];
             var L', R' := RemoveGte(L, Max(R) + k), RemoveLte(R, Min(L) - k);
             L' != L || R' != R
    ensures var n := CompileLtLte(op, doms[l], doms[r]);
            LtLteAt(op, doms, l, r) == Trimmed(doms[l := n.a][r := n.b], !n.keep)
    decreases |doms[l]| + |doms[r]|, 0
  {
    var k := if op == "lt" then 0 else 1;
    var L, R := doms[l], doms[r];
    var L', R' := RemoveGte(L, Max(R) + k), RemoveLte(R, Min(L) - k);
    var d := doms[l := L'][r := R'];
    TrimShrinks(L', L, R', R);
    assert LtLteAt(op, doms, l, r) == LtLteAt(op, d, l, r);
    assert CompileLtLte(op, L, R) == CompileLtLte(op, L', R');
    assert d[l] == L' && d[r] == R';
    LtLteAtDistinct(op, d, l, r);
    var n := CompileLtLte(op, L', R');
    assert d[l := n.a][r := n.b] == doms[l := n.a][r := n.b];
  }



  /** _config_solvedAtCompileTimeGtGte on the table. */
  function GtGteAt(op: string, doms: seq<Dom>, l: nat, r: nat): (t: Trimmed)
    requires (op == "gt" || op == "gte") && l < |doms| && r < |doms|
    ensures |t.doms| == |doms|
    ensures forall i :: 0 <= i < |doms| ==> t.doms[i] <= doms[i]
    ensures forall i :: 0 <= i < |doms| && i != l && i != r ==> t.doms[i] == doms[i]
    decreases |doms[l]| + |doms[r]|
  {
    var k := if op == "gt" then 0 else 1;
    var L, R := doms[l], doms[r];
    var v := GetValue(L);
    if v >= 0 then Trimmed(doms[r := RemoveGte(R, v + k)], true)
    else
      var w := GetValue(R);
      if w >= 0 then Trimmed(doms[l := RemoveLte(L, w - k)], true)
      else
        var L', R' := RemoveLte(L, Min(R) - k), RemoveGte(R, Max(L) + k);
        var d := doms[l := L'][r := R'];
        if L' != L || R' != R then
          if l == r then
            AliasedGtGteTrim(op, L);
            ProperSubsetSmaller(R', R);
            GtGteAt(op, d, l, r)
          else
            TrimShrinks(L', L, R', R);
            GtGteAt(op, d, l, r)
        else Trimmed(d, false)
  }

  /** One trimming round of GtGteAt on two unsolved domains: it recurses on the trimmed table exactly when something changed. */
  lemma GtGteAtTrim(op: string, doms: seq<Dom>, l: nat, r: nat, L': Dom, R': Dom, d: seq<Dom>)
    requires (op == "gt" || op == "gte") && l < |doms| && r < |doms|
    requires GetValue(doms[l]) < 0 && GetValue(doms[r]) < 0
    requires L' == RemoveLte(doms[l], Min(doms[r]) - (if op == "gt" then 0 else 1))
    requires R' == RemoveGte(doms[r], Max(doms[l]) + (if op == "gt" then 0 else 1))
    requires d == doms[l := L'][r := R']
    ensures L' != doms[l] || R' != doms[r] ==>
              |d[l]| + |d[r]| < |doms[l]| + |doms[r]| && GtGteAt(op, doms, l, r) == GtGteAt(op, d, l, r)
    ensures L' == doms[l] && R' == doms[r] ==> GtGteAt(op, doms, l, r) == Trimmed(d, false)
  {
    var k := if op == "gt" then 0 else 1;
    var L, R := doms[l], doms[r];
    assert L' == RemoveLte(L, Min(R) - k) && R' == RemoveGte(R, Max(L) + k);
    if L' != L || R' != R {
      if l == r {
        AliasedGtGteTrim(op, L);
        ProperSubsetSmaller(R', R);
      } else {
        TrimShrinks(L', L, R', R);
      }
      assert GtGteAt(op, doms, l, r) == GtGteAt(op, d, l, r);
    } else {
      assert GtGteAt(op, doms, l, r) == Trimmed(d, false);
    }
  }

  /** With two different variables, the table fold is CompileGtGte on their domains. */
  lemma {:induction false} GtGteAtDistinct(op: string, doms: seq<Dom>, l: nat, r: nat)
    requires (op == "gt" || op == "gte") && l < |doms| && r < |doms| && l != r
    ensures var n := CompileGtGte(op, doms[l], doms[r]);
            GtGteAt(op, doms, l, r) == Trimmed(doms[l := n.a][r := n.b], !n.keep)
    decreases |doms[l]| + |doms[r]|, 1
  {
    var k := if op == "gt" then 0 else 1;
    var L, R := doms[l], doms[r];
    var v, w := GetValue(L), GetValue(R);
    if v >= 0 {
      assert doms[l := L] == doms;
    } else if w >= 0 {
      assert doms[l := RemoveLte(L, w - k)][r := R] == doms[l := RemoveLte(L, w - k)];
    } else {
      var L', R' := RemoveLte(L, Min(R) - k), RemoveGte(R, Max(L) + k);
      if L' != L || R' != R {
        TrimShrinks(L', L, R', R);
        GtGteAtDistinctStep(op, doms, l, r);
      }
    }
  }

  /** The recursive case of GtGteAtDistinct. */
  lemma {:induction false} GtGteAtDistinctStep(op: string, doms: seq<Dom>, l: nat, r: nat)
    requires (op == "gt" || op == "gte") && l < |doms| && r < |doms| && l != r
    requires GetValue(doms[l]) < 0 && GetValue(doms[r]) < 0
    requires var k := if op == "gt" then 0 else 1; var L, R := doms[l], doms[r];
             var L', R' := RemoveLte(L, Min(R) - k), RemoveGte(R, Max(L) + k);
             L' != L || R' != R
    ensures var n := CompileGtGte(op, doms[l], doms[r]);
            GtGteAt(op, doms, l, r) == Trimmed(doms[l := n.a][r := n.b], !n.keep)
    decreases |doms[l]| + |doms[r]|, 0
  {
    var k := if op == "gt" then 0 else 1;
    var L, R := doms[l], doms[r];
    var L', R' := RemoveLte(L, Min(R) - k), RemoveGte(R, Max(L) + k);
    var d := doms[l := L'][r := R'];
    TrimShrinks(L', L, R', R);
    assert GtGteAt(op, doms, l, r) == GtGteAt(op, d, l, r);
    assert CompileGtGte(op, L, R) == CompileGtGte(op, L', R');
    assert d[l] == L' && d[r] == R';
    GtGteAtDistinct(op, d, l, r);
    var n := CompileGtGte(op, L', R');
    assert d[l := n.a][r := n.b] == doms[l := n.a][r := n.b];
  }



  /** _config_solvedAtCompileTimeEq: a solved side makes both sides their intersection. */
  function CompileEq(A: Dom, B: Dom): (r: Narrowed)
    ensures r.a <= A && r.b <= B
    ensures forall x :: x in A && x in B ==> x in r.a && x in r.b
    ensures !r.keep <==> IsSolved(A) || IsSolved(B)
    ensures !r.keep ==> forall x, y :: x in r.a && y in r.b ==> x == y
  {
    var v := GetValue(A);
    var v' := if v == NO_SUCH_VALUE then GetValue(B) else v;
    if v' != NO_SUCH_VALUE then Narrowed(A * B, A * B, false)
    else Narrowed(A, B, true)
  }

  /** _config_solvedAtCompileTimeNeq: a solved side's value leaves the other side. */
  function CompileNeq(A: Dom, B: Dom): (r: Narrowed)
    ensures r.a <= A && r.b <= B
    ensures forall x, y :: x in A && y in B && x != y ==> x in r.a && y in r.b
    ensures !r.keep <==> IsSolved(A) || IsSolved(B)
    ensures !r.keep ==> forall x, y :: x in r.a && y in r.b ==> x != y
  {
    var v := GetValue(A);
    if v != NO_SUCH_VALUE then Narrowed(A, RemoveValue(B, v), false)
    else
      var w := GetValue(B);
      if w != NO_SUCH_VALUE then Narrowed(RemoveValue(A, w), B, false)
      else Narrowed(A, B, true)
  }

  // ---------------------------------------------------------------------------
  // Reifiers: R = (A op B) folded when enough of A, B, R is known.
  // ---------------------------------------------------------------------------

  /** _config_solvedAtCompileTimeReifierBoth's truth value; None for an unknown op. */
  function ReifierTruth(op: string, v1: int, v2: int): (r: Option<bool>)
    ensures r.Some? <==> KnownOp(op)
    ensures r.Some? ==> r.value == Holds(op, v1, v2)
  {
    if op == "lt" then Some(v1 < v2)
    else if op == "lte" then Some(v1 <= v2)
    else if op == "gt" then Some(v1 > v2)
    else if op == "gte" then Some(v1 >= v2)
    else if op == "eq" then Some(v1 == v2)
    else if op == "neq" then Some(v1 != v2)
    else None
  }

  /**
   * _config_solvedAtCompileTimeReifierLeft: the left operand is solved to v
   * and the result to `truthy`; D is the right operand's domain and d1, d2
   * the left and right domains as read before the switch.
   */
  function ReifierLeftFold(op: string, v: int, truthy: bool, D: Dom, d1: Dom, d2: Dom): (r: Option<Dom>)
    ensures r.Some? <==> KnownOp(op)
    ensures r.Some? && d1 == {v} && d2 == D ==> r.value == set x | x in D && Holds(op, v, x) == truthy
  {
    if op == "lt" then Some(if truthy then RemoveLte(D, v) else RemoveGte(D, v + 1))
    else if op == "lte" then Some(if truthy then RemoveLte(D, v - 1) else RemoveGte(D, v))
    else if op == "gt" then Some(if truthy then RemoveGte(D, v) else RemoveLte(D, v - 1))
    else if op == "gte" then Some(if truthy then RemoveGte(D, v + 1) else RemoveLte(D, v))
    else if op == "eq" then Some(if truthy then d1 * d2 else RemoveValue(D, v))
    else if op == "neq" then Some(if truthy then RemoveValue(D, v) else d1 * d2)
    else None
  }

  /** _config_solvedAtCompileTimeReifierRight: the mirror image, the right operand solved to v. */
  function ReifierRightFold(op: string, v: int, truthy: bool, D: Dom, d1: Dom, d2: Dom): (r: Option<Dom>)
    ensures r.Some? <==> KnownOp(op)
    ensures r.Some? && d2 == {v} && d1 == D ==> r.value == set x | x in D && Holds(op, x, v) == truthy
  {
    if op == "lt" then Some(if truthy then RemoveGte(D, v) else RemoveLte(D, v - 1))
    else if op == "lte" then Some(if truthy then RemoveGte(D, v + 1) else RemoveLte(D, v))
    else if op == "gt" then Some(if truthy then RemoveLte(D, v) else RemoveGte(D, v + 1))
    else if op == "gte" then Some(if truthy then RemoveLte(D, v - 1) else RemoveGte(D, v))
    else if op == "eq" then Some(if truthy then d1 * d2 else RemoveValue(D, v))
    else if op == "neq" then Some(if truthy then RemoveValue(D, v) else d1 * d2)
    else None
  }

  /** One slot rewritten and the slots pushed onto the constrained-away list. */
  datatype Fold = NoFold | Fold(slot: Slot, d: Dom, away: seq<Slot>)

  /** _config_eliminateReifier: the relation is decided, so the result is resolved. */
  function Eliminate(C: Dom, passed: bool): Fold
  {
    Fold(Result, ResolveAsBooly(C, passed), [Left, Right, Result])
  }

  /** _config_solvedAtCompileTimeReifier on the domains of A, B and the result C. */
  function CompileReifier(op: string, A: Dom, B: Dom, C: Dom): (r: Result<Fold>)
    ensures r.Err? <==> !KnownOp(op) && !(IsSolved(A) && IsSolved(B))
                        && !((IsZero(C) || HasNoZero(C)) && (IsSolved(A) || IsSolved(B)))
    ensures r.Err? ==> r.error == UnknownOp
    ensures r.Ok? && r.value.Fold? ==> r.value.d <= SlotDom(r.value.slot, A, B, C)
  {
    var v1, v2 := GetValue(A), GetValue(B);
    if v1 >= 0 && v2 >= 0 then
      match ReifierTruth(op, v1, v2)
      case None => Ok(NoFold)
      case Some(b) => Ok(Fold(Result, ResolveAsBooly(C, b), [Result]))
    else
      var falsy, truthy := IsZero(C), HasNoZero(C);
      if falsy != truthy && v1 >= 0 then
        match ReifierLeftFold(op, v1, truthy, B, A, B)
        case None => Ok(NoFold)
        case Some(d) => Ok(Fold(Right, d, [Right]))
      else if falsy != truthy && v2 >= 0 then
        match ReifierRightFold(op, v2, truthy, A, A, B)
        case None => Ok(NoFold)
        case Some(d) => Ok(Fold(Left, d, [Left]))
      else if op == "eq" || op == "neq" then Ok(NoFold)
      else if op == "lt" then
        if Max(A) < Min(B) then Ok(Eliminate(C, true))
        else if Min(A) >= Max(B) then Ok(Eliminate(C, false))
        else Ok(NoFold)
      else if op == "lte" then
        if Max(A) <= Min(B) then Ok(Eliminate(C, true))
        else if Min(A) > Max(B) then Ok(Eliminate(C, false))
        else Ok(NoFold)
      else if op == "gt" then
        if Min(A) > Max(B) then Ok(Eliminate(C, true))
        else if Max(A) <= Min(B) then Ok(Eliminate(C, false))
        else Ok(NoFold)
      else if op == "gte" then
        if Min(A) >= Max(B) then Ok(Eliminate(C, true))
        else if Max(A) < Min(B) then Ok(Eliminate(C, false))
        else Ok(NoFold)
      else Err(UnknownOp)
  }

  function SlotDom(s: Slot, A: Dom, B: Dom, C: Dom): Dom
  {
    match s
    case Left => A
    case Right => B
    case Result => C
  }

  /** The domain of slot s after the fold wrote its slot. */
  function After(f: Fold, s: Slot, A: Dom, B: Dom, C: Dom): Dom
  {
    if f.Fold? && f.slot == s then f.d else SlotDom(s, A, B, C)
  }

  /** A fold never loses an assignment in which the result reflects `A op B`. */
  lemma CompileReifierSound(op: string, A: Dom, B: Dom, C: Dom, a: nat, b: nat, c: nat)
    requires a in A && b in B && c in C && (c != 0 <==> Holds(op, a, b))
    ensures CompileReifier(op, A, B, C).Ok? && CompileReifier(op, A, B, C).value.Fold? ==>
              SlotValue(CompileReifier(op, A, B, C).value.slot, a, b, c) in CompileReifier(op, A, B, C).value.d
  {
  }

  /** Once a reifier is folded away, every assignment left in the domains satisfies it. */
  lemma CompileReifierEntailed(op: string, A: Dom, B: Dom, C: Dom, a: nat, b: nat, c: nat)
    requires CompileReifier(op, A, B, C).Ok? && CompileReifier(op, A, B, C).value.Fold?
    requires var f := CompileReifier(op, A, B, C).value;
             a in After(f, Left, A, B, C) && b in After(f, Right, A, B, C) && c in After(f, Result, A, B, C)
    ensures c != 0 <==> Holds(op, a, b)
  {
  }

  // ---------------------------------------------------------------------------
  // sum / product: the result is bounded by the fold of the operand domains
  // and the solved operands are folded into one constant.
  // ---------------------------------------------------------------------------

  /** The identity the constant fold starts from: 0 for a sum, 1 for a product. */
  function Ident(isSum: bool): nat { if isSum then 0 else 1 }

  function CombVal(isSum: bool, x: nat, y: nat): nat { if isSum then x + y else x * y }

  /** domain_plus for a sum, domain_mul for a product. */
  function Comb(isSum: bool, x: Dom, y: Dom): Dom { if isSum then Plus(x, y) else Mul(x, y) }

  /** The running fold of the operand domains, from the first operand's domain on. */
  function FoldDoms(doms: seq<Dom>, xs: seq<nat>, isSum: bool): Dom
    requires |xs| > 0 && AllBelow(xs, |doms|)
    decreases |xs|
  {
    if |xs| == 1 then doms[xs[0]]
    else Comb(isSum, FoldDoms(doms, xs[..|xs| - 1], isSum), doms[xs[|xs| - 1]])
  }

  /** The combined value of a list of operand values. */
  function Total(isSum: bool, ps: seq<nat>): nat
    decreases |ps|
  {
    if ps == [] then Ident(isSum) else CombVal(isSum, Total(isSum, ps[..|ps| - 1]), ps[|ps| - 1])
  }

  /** Each operand takes a value from its domain, and no running total exceeds SUP. */
  predicate Picks(doms: seq<Dom>, xs: seq<nat>, ps: seq<nat>)
    requires AllBelow(xs, |doms|)
  {
    |ps| == |xs| && forall i :: 0 <= i < |xs| ==> ps[i] in doms[xs[i]]
  }

  predicate RunningBelowSup(isSum: bool, ps: seq<nat>)
  {
    forall k :: 1 <= k <= |ps| ==> Total(isSum, ps[..k]) <= SUP
  }

  /** Any choice of operand values whose running totals stay within SUP has its total in the fold. */
  lemma {:induction false} FoldDomsSound(doms: seq<Dom>, xs: seq<nat>, isSum: bool, ps: seq<nat>)
    requires |xs| > 0 && AllBelow(xs, |doms|) && Picks(doms, xs, ps) && RunningBelowSup(isSum, ps)
    ensures Total(isSum, ps) in FoldDoms(doms, xs, isSum)
    decreases |xs|
  {
    var n := |xs|;
    if n == 1 {
      assert ps[..0] == [];
      assert ps[0] in doms[xs[0]];
    } else {
      var xs', ps' := xs[..n - 1], ps[..n - 1];
      assert Picks(doms, xs', ps');
      forall k | 1 <= k <= |ps'| ensures Total(isSum, ps'[..k]) <= SUP {
        assert ps'[..k] == ps[..k];
      }
      FoldDomsSound(doms, xs', isSum, ps');
      assert ps[..n] == ps;
      var t := Total(isSum, ps');
      assert Total(isSum, ps) == CombVal(isSum, t, ps[n - 1]);
      assert Total(isSum, ps) <= SUP;
      assert ps[n - 1] in doms[xs[n - 1]];
    }
  }

  /** The operands whose domain is not solved, in their original order. */
  function Unsolved(doms: seq<Dom>, xs: seq<nat>): (us: seq<nat>)
    requires AllBelow(xs, |doms|)
    ensures AllBelow(us, |doms|) && |us| <= |xs|
    ensures forall u :: u in us <==> u in xs && !IsSolved(doms[u])
    decreases |xs|
  {
    if xs == [] then []
    else
      var x := xs[|xs| - 1];
      Unsolved(doms, xs[..|xs| - 1]) + (if IsSolved(doms[x]) then [] else [x])
  }

  /** The solved operands' values combined, starting from the identity. */
  function ConstTotal(doms: seq<Dom>, xs: seq<nat>, isSum: bool): nat
    requires AllBelow(xs, |doms|)
    decreases |xs|
  {
    if xs == [] then Ident(isSum)
    else
      var x := xs[|xs| - 1];
      var t := ConstTotal(doms, xs[..|xs| - 1], isSum);
      var v := GetValue(doms[x]);
      if v >= 0 then CombVal(isSum, t, v) else t
  }

  /** The values picked for the unsolved operands. */
  function PickUnsolved(doms: seq<Dom>, xs: seq<nat>, ps: seq<nat>): seq<nat>
    requires AllBelow(xs, |doms|) && |ps| == |xs|
    decreases |xs|
  {
    if xs == [] then []
    else
      var n := |xs|;
      PickUnsolved(doms, xs[..n - 1], ps[..n - 1]) + (if IsSolved(doms[xs[n - 1]]) then [] else [ps[n - 1]])
  }

  lemma CombAssocComm(isSum: bool, a: nat, b: nat, c: nat)
    ensures CombVal(isSum, CombVal(isSum, a, b), c) == CombVal(isSum, CombVal(isSum, a, c), b)
    ensures CombVal(isSum, CombVal(isSum, a, b), c) == CombVal(isSum, a, CombVal(isSum, b, c))
  {
    if !isSum {
      assert (a * b) * c == a * (b * c);
      assert a * (b * c) == a * (c * b);
      assert (a * c) * b == a * (c * b);
    }
  }

  /**
   * Folding the solved operands into one constant does not change the
   * combined value: the total of all picks is the total of the unsolved
   * picks combined with the constant.
   */
  lemma {:induction false} ConstFoldPreservesTotal(doms: seq<Dom>, xs: seq<nat>, isSum: bool, ps: seq<nat>)
    requires AllBelow(xs, |doms|) && Picks(doms, xs, ps)
    ensures Total(isSum, ps) == CombVal(isSum, Total(isSum, PickUnsolved(doms, xs, ps)), ConstTotal(doms, xs, isSum))
    decreases |xs|
  {
    if xs != [] {
      var n := |xs|;
      var xs', ps' := xs[..n - 1], ps[..n - 1];
      assert Picks(doms, xs', ps');
      ConstFoldPreservesTotal(doms, xs', isSum, ps');
      var tu, ct := Total(isSum, PickUnsolved(doms, xs', ps')), ConstTotal(doms, xs', isSum);
      var p := ps[n - 1];
      assert Total(isSum, ps) == CombVal(isSum, CombVal(isSum, tu, ct), p);
      if IsSolved(doms[xs[n - 1]]) {
        assert p in doms[xs[n - 1]];
        assert ConstTotal(doms, xs, isSum) == CombVal(isSum, ct, p);
        assert PickUnsolved(doms, xs, ps) == PickUnsolved(doms, xs', ps');
        CombAssocComm(isSum, tu, ct, p);
      } else {
        var pu := PickUnsolved(doms, xs', ps') + [p];
        assert PickUnsolved(doms, xs, ps) == pu;
        assert ConstTotal(doms, xs, isSum) == ct;
        assert pu[..|pu| - 1] == PickUnsolved(doms, xs', ps');
        assert Total(isSum, pu) == CombVal(isSum, tu, p);
        CombAssocComm(isSum, tu, ct, p);
      }
    }
  }

  /** The first step of the sum/product fold: the result is narrowed to the fold of the operand domains. */
  function BoundResult(doms: seq<Dom>, xs: seq<nat>, res: nat, isSum: bool): (d: seq<Dom>)
    requires AllBelow(xs, |doms|) && res < |doms|
    ensures |d| == |doms| && d[res] <= doms[res]
    ensures forall i :: 0 <= i < |doms| && i != res ==> d[i] == doms[i]
  {
    if |xs| > 0 then doms[res := FoldDoms(doms, xs, isSum) * doms[res]] else doms
  }

  /**
   * The first two steps of the sum/product fold: the table after the result
   * is bounded and the solved operands are replaced by their total, and the
   * rewritten operand list. cache is the constant cache: the total reuses
   * its cached variable, or is declared as the new variable |doms| holding
   * only that value. The constant is left out when something unsolved
   * remains and the total is the identity (0 for a sum, 1 for a product).
   */
  function RewriteOperands(doms: seq<Dom>, cache: map<nat, nat>, xs: seq<nat>, res: nat, isSum: bool): (w: (seq<Dom>, seq<nat>))
    requires AllBelow(xs, |doms|) && res < |doms| && forall v :: v in cache ==> cache[v] < |doms|
    ensures |doms| <= |w.0| <= |doms| + 1 && w.0[..|doms|] == BoundResult(doms, xs, res, isSum)
    ensures AllBelow(w.1, |w.0|)
  {
    var d1 := BoundResult(doms, xs, res, isSum);
    if |xs| <= 1 then (d1, xs)
    else
      var us, t := Unsolved(d1, xs), ConstTotal(d1, xs, isSum);
      if us != [] && t == Ident(isSum) then (d1, us)
      else if t in cache then (d1, us + [cache[t]])
      else (d1 + [{t}], us + [|d1|])
  }

  /**
   * The bound of the first step survives the whole fold: after the rewrite
   * and the last step, the result domain lies within the sum (product) of
   * the original operand domains and within its own original domain.
   */
  lemma SumProductResultBound(doms: seq<Dom>, cache: map<nat, nat>, xs: seq<nat>, res: nat, isSum: bool)
    requires AllBelow(xs, |doms|) && res < |doms| && forall v :: v in cache ==> cache[v] < |doms|
    ensures var w := RewriteOperands(doms, cache, xs, res, isSum);
            var s := Settle(w.0, w.1, res);
            s.doms[res] <= doms[res] && (|xs| > 0 ==> s.doms[res] <= FoldDoms(doms, xs, isSum))
  {
    var w := RewriteOperands(doms, cache, xs, res, isSum);
    assert w.0[res] == w.0[..|doms|][res];
  }

  /**
   * With two or more operands the rewritten list is the unsolved operands,
   * in order, followed by one more variable exactly when the total is kept.
   */
  lemma RewrittenOperands(doms: seq<Dom>, cache: map<nat, nat>, xs: seq<nat>, res: nat, isSum: bool)
    requires AllBelow(xs, |doms|) && res < |doms| && forall v :: v in cache ==> cache[v] < |doms|
    requires |xs| > 1
    ensures var w := RewriteOperands(doms, cache, xs, res, isSum);
            var d1 := BoundResult(doms, xs, res, isSum);
            var us, t := Unsolved(d1, xs), ConstTotal(d1, xs, isSum);
            w.1[..|us|] == us && (|w.1| == |us| + 1 <==> us == [] || t != Ident(isSum)) && |w.1| <= |us| + 1
            && (|w.1| == |us| + 1 && t in cache ==> w.1[|us|] == cache[t])
            && (|w.1| == |us| + 1 && t !in cache ==> w.1[|us|] == |doms| && w.0[|doms|] == {t})
  {
    var w := RewriteOperands(doms, cache, xs, res, isSum);
    var us := Unsolved(BoundResult(doms, xs, res, isSum), xs);
    assert (us + [0])[..|us|] == us;
  }

  /** What the last step of the sum/product fold leaves: the table, whether the constraint is dropped, and what it pushes as constrained away. */
  datatype Settled = Settled(doms: seq<Dom>, dropped: bool, away: seq<nat>)

  /**
   * The last step of the sum/product fold on the rewritten operand list ys:
   * no operand means the result is 0; one operand must equal the result,
   * and the constraint is dropped when that common domain is solved.
   */
  function Settle(doms: seq<Dom>, ys: seq<nat>, res: nat): (s: Settled)
    requires AllBelow(ys, |doms|) && res < |doms|
    ensures |s.doms| == |doms| && forall i :: 0 <= i < |doms| ==> s.doms[i] <= doms[i]
    ensures |ys| == 0 ==> s.dropped && s.doms[res] == doms[res] * {0}
    ensures |ys| == 1 ==> s.doms[res] == s.doms[ys[0]] == doms[res] * doms[ys[0]]
                          && (s.dropped <==> IsSolved(s.doms[res]))
    ensures |ys| > 1 ==> !s.dropped && s.doms == doms
    ensures s.away == if s.dropped && |ys| == 1 then [ys[0], res] else []
  {
    if |ys| == 0 then Settled(doms[res := doms[res] * {0}], true, [])
    else if |ys| == 1 then
      var d := doms[res] * doms[ys[0]];
      var d' := doms[res := d][ys[0] := d];
      if IsSolved(d) then Settled(d', true, [ys[0], res]) else Settled(d', false, [])
    else Settled(doms, false, [])
  }
}
