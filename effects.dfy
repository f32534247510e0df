/**
 * What the propagator builders do to the domain table, as functions of it:
 * the table they leave and the propagators they append. Beside each, the
 * assignments of values to variables that survive it, and the bookkeeping of
 * the anonymous variables a split sum or product declares.
 */
module Effects {
  import opened Domain
  import opened Records
  import opened Rules
  import opened Names
  /** propagator_addNeq's effect: the rewritten table and the propagator it appends, if any. */
  function NeqEffect(doms: seq<Dom>, l: nat, r: nat): (e: (seq<Dom>, seq<Propagator>))
    requires l < |doms| && r < |doms|
    ensures |e.0| == |doms| && forall p :: p in e.1 ==> InRange(p, |doms|)
  {
    var n := NeqRule(doms[l], doms[r]);
    (doms[l := n.a][r := n.b], if n.keep then [Create("neq", NeqStepBare, l, r)] else [])
  }

  /** The domains and appended propagators of one of the plain binary builders. */
  function BinEffect(k: BinKind, doms: seq<Dom>, l: nat, r: nat): (e: (seq<Dom>, seq<Propagator>))
    requires l < |doms| && r < |doms|
    ensures |e.0| == |doms| && forall p :: p in e.1 ==> InRange(p, |doms|)
    decreases if k.BGt? || k.BGte? then 1 else 0
  {
    match k
    case BEq =>
      var n := EqRule(doms[l], doms[r]);
      (doms[l := n.a][r := n.b], if n.keep then [Create("eq", EqStepBare, l, r)] else [])
    case BNeq => NeqEffect(doms, l, r)
    case BLt =>
      var n := LtRule(doms[l], doms[r]);
      (doms[l := n.a][r := n.b], if n.keep then [Create("lt", LtStepBare, l, r)] else [])
    case BLte =>
      var n := LteRule(doms[l], doms[r]);
      (doms[l := n.a][r := n.b], if n.keep then [Create("lte", LteStepBare, l, r)] else [])
    case BGt => BinEffect(BLt, doms, r, l)
    case BGte => BinEffect(BLte, doms, r, l)
  }

  /**
   * The domains and appended propagators of the plus, min, ring-mul, ring-div
   * and mul builders. Only the two products narrow domains, and only they
   * may append nothing (when the domains already resolve the product).
   */
  function ArithEffect(name: string, doms: seq<Dom>, l: nat, r: nat, res: nat): (e: (seq<Dom>, seq<Propagator>))
    requires ResultOp(name) && name != "reifier" && l < |doms| && r < |doms| && res < |doms|
    ensures |e.0| == |doms|
  {
    if name == "plus" then (doms, PlusRings(l, r, res))
    else if name == "min" then (doms, [Create("min", MinStep, l, r, res)])
    else if name == "ring-div" then (doms, [Create("div", DivStep, l, r, res)])
    else if name == "ring-mul" then RingMulEffect(doms, l, r, res)
    else MulEffect(doms, l, r, res)
  }

  /** propagator_addMul's effect: the table MulRule leaves and one mul propagator unless it resolved the product. */
  function MulEffect(doms: seq<Dom>, l: nat, r: nat, res: nat): (e: (seq<Dom>, seq<Propagator>))
    requires l < |doms| && r < |doms| && res < |doms|
    ensures |e.0| == |doms| && |e.1| <= 1
  {
    var m := MulRule(doms, l, r, res);
    (m.doms, if m.resolved then [] else [Create("mul", MulStep, l, r, res)])
  }

  /** No arithmetic builder grows a domain; only the two products narrow any, and only they may append nothing. */
  lemma ArithEffectNarrows(name: string, doms: seq<Dom>, l: nat, r: nat, res: nat)
    requires ResultOp(name) && name != "reifier" && l < |doms| && r < |doms| && res < |doms|
    ensures var e := ArithEffect(name, doms, l, r, res);
            (forall i :: 0 <= i < |doms| ==> e.0[i] <= doms[i])
            && (name != "ring-mul" && name != "mul" ==> e.0 == doms && e.1 != [])
  {
  }

  /** An arithmetic builder appends at most three propagators, all over declared variables. */
  lemma ArithEffectInRange(name: string, doms: seq<Dom>, l: nat, r: nat, res: nat)
    requires ResultOp(name) && name != "reifier" && l < |doms| && r < |doms| && res < |doms|
    ensures var e := ArithEffect(name, doms, l, r, res);
            |e.1| <= 3 && forall p :: p in e.1 ==> InRange(p, |doms|)
  {
    var e := ArithEffect(name, doms, l, r, res);
    forall p | p in e.1 ensures InRange(p, |doms|) {
      var k :| 0 <= k < |e.1| && e.1[k] == p;
    }
  }

  /** A product builder keeps every assignment with l * r == res, outside the quotient case. */
  lemma ArithEffectSound(name: string, doms: seq<Dom>, l: nat, r: nat, res: nat, vals: seq<nat>)
    requires ResultOp(name) && name != "reifier" && l < |doms| && r < |doms| && res < |doms| && Sat(doms, vals)
    requires name == "ring-mul" || name == "mul" ==>
               l != r && r != res && l != res && vals[l] * vals[r] == vals[res]
               && vals[l] <= SUP && vals[r] <= SUP && vals[res] <= SUP
               && !QuotientCase(doms[l], doms[r], doms[res])
    ensures Sat(ArithEffect(name, doms, l, r, res).0, vals)
  {
    if name == "ring-mul" || name == "mul" {
      MulRuleSound(doms, l, r, res, vals[l], vals[r], vals[res]);
      var d := ArithEffect(name, doms, l, r, res).0;
      forall i | 0 <= i < |d| ensures vals[i] in d[i] {
        if i != l && i != r && i != res { assert d[i] == doms[i]; }
      }
    }
  }

  function SlotIndex(s: Slot, l: nat, r: nat, res: nat): nat
  {
    match s
    case Left => l
    case Right => r
    case Result => res
  }

  /** The variable indexes of a list of slots. */
  function SlotIndexes(ss: seq<Slot>, l: nat, r: nat, res: nat): (xs: seq<nat>)
    ensures |xs| == |ss| && forall k :: 0 <= k < |ss| ==> xs[k] == SlotIndex(ss[k], l, r, res)
  {
    seq(|ss|, k requires 0 <= k < |ss| => SlotIndex(ss[k], l, r, res))
  }

  /** The three ring propagators of propagator_addRingPlusOrMul. */
  function RingTriple(op: string, inv: string, opFn: Fn, invFn: Fn, l: nat, r: nat, res: nat): (ps: seq<Propagator>)
    ensures |ps| == 3
  {
    var opArgs, invArgs := [Text(op), Func(opFn), NoArg, NoArg, NoArg, NoArg], [Text(inv), Func(invFn), NoArg, NoArg, NoArg, NoArg];
    [Propagator("ring", RingStepBare, l, r, res, opArgs),
     Propagator("ring", RingStepBare, res, r, l, invArgs),
     Propagator("ring", RingStepBare, res, l, r, invArgs)]
  }

  // ---------------------------------------------------------------------------
  // What the builders do to the domain table, as functions of it, and which
  // assignments of values to variables survive them.
  // ---------------------------------------------------------------------------

  /** vals assigns every variable a value of its domain. */
  predicate Sat(doms: seq<Dom>, vals: seq<nat>)
  {
    |vals| == |doms| && forall i :: 0 <= i < |doms| ==> vals[i] in doms[i]
  }

  /** A binary builder keeps every assignment that satisfies its relation. */
  lemma BinEffectSound(k: BinKind, doms: seq<Dom>, l: nat, r: nat, vals: seq<nat>)
    requires l < |doms| && r < |doms| && l != r && Sat(doms, vals)
    requires HoldsKind(k, vals[l], vals[r])
    ensures Sat(BinEffect(k, doms, l, r).0, vals)
  {
    var x, y := vals[l], vals[r];
    match k
    case BEq => assert x in EqRule(doms[l], doms[r]).a && y in EqRule(doms[l], doms[r]).b;
    case BNeq => assert x in NeqRule(doms[l], doms[r]).a && y in NeqRule(doms[l], doms[r]).b;
    case BLt => assert x in LtRule(doms[l], doms[r]).a && y in LtRule(doms[l], doms[r]).b;
    case BLte => assert x in LteRule(doms[l], doms[r]).a && y in LteRule(doms[l], doms[r]).b;
    case BGt => assert y in LtRule(doms[r], doms[l]).a && x in LtRule(doms[r], doms[l]).b;
    case BGte => assert y in LteRule(doms[r], doms[l]).a && x in LteRule(doms[r], doms[l]).b;
  }

  /** Executing a reifier plan on the slots l, r and res. */
  function PlanEffect(p: Plan, doms: seq<Dom>, l: nat, r: nat, res: nat): (e: (seq<Dom>, seq<Propagator>))
    requires l < |doms| && r < |doms| && res < |doms|
    ensures |e.0| == |doms| && forall q :: q in e.1 ==> InRange(q, |doms|)
  {
    match p
    case Done => (doms, [])
    case Fail => (doms, [])
    case SetDom(s, d) => (doms[SlotIndex(s, l, r, res) := d], [])
    case Build(k, x, y) => BinEffect(k, doms, SlotIndex(x, l, r, res), SlotIndex(y, l, r, res))
    case AppendReified(x, y, o, n, f, g, rf, rg) =>
      (doms, [Create("reified", ReifiedStepBare, SlotIndex(x, l, r, res), SlotIndex(y, l, r, res), res,
                     [Func(f), Func(g), Text(o), Text(n), Func(rf), Func(rg)])])
  }

  /**
   * propagator_addReified as a whole keeps every assignment of three distinct
   * variables in which the boolean is non-zero exactly when `l op r` holds.
   */
  lemma ReifiedEffectSound(op: string, doms: seq<Dom>, l: nat, r: nat, res: nat, vals: seq<nat>)
    requires KnownOp(op) && l < |doms| && r < |doms| && res < |doms| && l != r && l != res && r != res
    requires Sat(doms, vals) && (vals[res] != 0 <==> Holds(op, vals[l], vals[r]))
    ensures Sat(PlanEffect(ReifiedPlan(op, doms[l], doms[r], doms[res]), doms, l, r, res).0, vals)
  {
    var p := ReifiedPlan(op, doms[l], doms[r], doms[res]);
    ReifiedPlanSound(op, doms[l], doms[r], doms[res], vals[l], vals[r], vals[res]);
    match p {
      case Build(k, x, y) =>
        SlotValueAt(x, l, r, res, vals);
        SlotValueAt(y, l, r, res, vals);
        assert SlotIndex(x, l, r, res) != SlotIndex(y, l, r, res);
        BinEffectSound(k, doms, SlotIndex(x, l, r, res), SlotIndex(y, l, r, res), vals);
      case SetDom(s, d) =>
        SlotValueAt(s, l, r, res, vals);
      case _ =>
    }
  }

  /** The value a slot names is the value at the variable the slot stands for. */
  lemma SlotValueAt(s: Slot, l: nat, r: nat, res: nat, vals: seq<nat>)
    requires l < |vals| && r < |vals| && res < |vals|
    ensures SlotIndex(s, l, r, res) < |vals| && SlotValue(s, vals[l], vals[r], vals[res]) == vals[SlotIndex(s, l, r, res)]
  {
  }

  /** The pairs propagator_addDistinct visits in row i: (xs[i], xs[j]) for j < i. */
  function Row(xs: seq<nat>, i: nat): (row: seq<(nat, nat)>)
    requires i < |xs|
    ensures |row| == i && forall j :: 0 <= j < i ==> row[j] == (xs[i], xs[j])
  {
    seq(i, j requires 0 <= j < i => (xs[i], xs[j]))
  }

  /** Every pair of positions j < i of xs, in the order of the nested loops of propagator_addDistinct. */
  function Pairs(xs: seq<nat>): (ps: seq<(nat, nat)>)
    ensures forall k :: 0 <= k < |ps| ==> ps[k].0 in xs && ps[k].1 in xs
    decreases |xs|
  {
    if |xs| == 0 then []
    else
      var n := |xs| - 1;
      assert forall v :: v in xs[..n] ==> v in xs;
      Pairs(xs[..n]) + Row(xs, n)
  }

  /** Every unordered pair of positions is visited, and nothing else is. */
  lemma PairsMembers(xs: seq<nat>)
    ensures forall i, j :: 0 <= j < i < |xs| ==> (xs[i], xs[j]) in Pairs(xs)
    ensures forall q :: q in Pairs(xs) ==> exists i, j :: 0 <= j < i < |xs| && q == (xs[i], xs[j])
  {
    PairsComplete(xs);
    PairsSound(xs);
  }

  /** Every pair of positions j < i is visited. */
  lemma {:induction false} PairsComplete(xs: seq<nat>)
    ensures forall i, j :: 0 <= j < i < |xs| ==> (xs[i], xs[j]) in Pairs(xs)
    decreases |xs|
  {
    if |xs| > 0 {
      var n := |xs| - 1;
      var pre := Pairs(xs[..n]);
      PairsComplete(xs[..n]);
      var row := Row(xs, n);
      assert Pairs(xs) == pre + row;
      forall i, j | 0 <= j < i < |xs| ensures (xs[i], xs[j]) in Pairs(xs) {
        if i < n {
          assert (xs[..n][i], xs[..n][j]) in pre;
        } else {
          assert row[j] == (xs[i], xs[j]);
          assert (xs[i], xs[j]) in row;
        }
      }
    }
  }

  /** Nothing but pairs of positions j < i is visited. */
  lemma {:induction false} PairsSound(xs: seq<nat>)
    ensures forall q :: q in Pairs(xs) ==> exists i, j :: 0 <= j < i < |xs| && q == (xs[i], xs[j])
    decreases |xs|
  {
    if |xs| > 0 {
      var n := |xs| - 1;
      var pre := Pairs(xs[..n]);
      PairsSound(xs[..n]);
      assert Pairs(xs) == pre + Row(xs, n);
      forall q | q in Pairs(xs) ensures exists i, j :: 0 <= j < i < |xs| && q == (xs[i], xs[j]) {
        if q in pre {
          var i, j :| 0 <= j < i < n && q == (xs[..n][i], xs[..n][j]);
          assert q == (xs[i], xs[j]);
        } else {
          var j :| 0 <= j < n && Row(xs, n)[j] == q;
          assert q == (xs[n], xs[j]);
        }
      }
    }
  }

  /** The number of pairs of positions of k elements, one row at a time. */
  function RowTotal(k: nat): nat
  {
    if k == 0 then 0 else RowTotal(k - 1) + (k - 1)
  }

  /** propagator_addDistinct over k variables adds k * (k - 1) / 2 neq constraints. */
  lemma {:induction false} PairsCount(xs: seq<nat>)
    ensures |Pairs(xs)| == RowTotal(|xs|) == |xs| * (|xs| - 1) / 2
    decreases |xs|
  {
    if |xs| > 0 {
      var n := |xs| - 1;
      PairsCount(xs[..n]);
      assert |xs| * (|xs| - 1) == n * (n - 1) + 2 * n;
    }
  }

  /** Both variables of every pair are below n. */
  predicate PairsBelow(ps: seq<(nat, nat)>, n: nat)
  {
    forall k :: 0 <= k < |ps| ==> ps[k].0 < n && ps[k].1 < n
  }

  /** The neq builder applied to each pair in turn, from the given table. */
  function NeqFold(doms: seq<Dom>, ps: seq<(nat, nat)>): (e: (seq<Dom>, seq<Propagator>))
    requires PairsBelow(ps, |doms|)
    ensures |e.0| == |doms| && forall q :: q in e.1 ==> InRange(q, |doms|)
    decreases |ps|
  {
    if ps == [] then (doms, [])
    else
      var e := NeqFold(doms, ps[..|ps| - 1]);
      var f := NeqEffect(e.0, ps[|ps| - 1].0, ps[|ps| - 1].1);
      (f.0, e.1 + f.1)
  }

  lemma PairsBelowAppend(a: seq<(nat, nat)>, b: seq<(nat, nat)>, n: nat)
    requires PairsBelow(a, n) && PairsBelow(b, n)
    ensures PairsBelow(a + b, n)
  {
    forall k | 0 <= k < |a + b| ensures (a + b)[k].0 < n && (a + b)[k].1 < n {
      if k >= |a| { assert (a + b)[k] == b[k - |a|]; }
    }
  }

  /** Folding over a + b is folding over a, then over b from where a left off. */
  lemma {:induction false} NeqFoldAppend(doms: seq<Dom>, a: seq<(nat, nat)>, b: seq<(nat, nat)>)
    requires PairsBelow(a, |doms|) && PairsBelow(b, |doms|)
    ensures PairsBelow(a + b, |doms|)
    ensures var e := NeqFold(doms, a); var f := NeqFold(e.0, b);
            NeqFold(doms, a + b).0 == f.0 && NeqFold(doms, a + b).1 == e.1 + f.1
    decreases |b|
  {
    PairsBelowAppend(a, b, |doms|);
    var e := NeqFold(doms, a);
    if b == [] {
      assert a + b == a;
      assert e.1 + [] == e.1;
    } else {
      var b' := b[..|b| - 1];
      var q := b[|b| - 1];
      assert (a + b)[..|a + b| - 1] == a + b' && (a + b)[|a + b| - 1] == q;
      assert PairsBelow(b', |doms|);
      NeqFoldAppend(doms, a, b');
      var g := NeqFold(e.0, b');
      var h := NeqEffect(g.0, q.0, q.1);
      assert NeqFold(doms, a + b').0 == g.0;
      AppendAssoc(e.1, g.1, h.1);
    }
  }

  /** The effect of the first i rows of propagator_addDistinct. */
  function DistinctPrefix(doms: seq<Dom>, xs: seq<nat>, i: nat): (e: (seq<Dom>, seq<Propagator>))
    requires AllBelow(xs, |doms|) && i <= |xs|
  {
    assert PairsBelow(Pairs(xs[..i]), |doms|) by {
      forall v | v in xs[..i] ensures v < |doms| { }
    }
    NeqFold(doms, Pairs(xs[..i]))
  }

  /** The first i + 1 rows are the first i rows followed by row i. */
  lemma NextRow(doms: seq<Dom>, xs: seq<nat>, i: nat)
    requires AllBelow(xs, |doms|) && i < |xs|
    ensures PairsBelow(Row(xs, i), |doms|)
    ensures var e := DistinctPrefix(doms, xs, i); |e.0| == |doms| && PairsBelow(Row(xs, i), |e.0|)
    ensures var e := DistinctPrefix(doms, xs, i); var f := NeqFold(e.0, Row(xs, i));
            DistinctPrefix(doms, xs, i + 1).0 == f.0 && DistinctPrefix(doms, xs, i + 1).1 == e.1 + f.1
  {
    assert xs[..i + 1][..i] == xs[..i];
    assert Row(xs[..i + 1], i) == Row(xs, i);
    assert Pairs(xs[..i + 1]) == Pairs(xs[..i]) + Row(xs, i);
    assert PairsBelow(Pairs(xs[..i]), |doms|) by {
      forall v | v in xs[..i] ensures v < |doms| { }
    }
    NeqFoldAppend(doms, Pairs(xs[..i]), Row(xs, i));
  }

  /** All rows together are the fold over Pairs(xs). */
  lemma AllRows(doms: seq<Dom>, xs: seq<nat>)
    requires AllBelow(xs, |doms|)
    ensures PairsBelow(Pairs(xs), |doms|) && DistinctPrefix(doms, xs, |xs|) == NeqFold(doms, Pairs(xs))
  {
    assert xs[..|xs|] == xs;
    var ps := Pairs(xs);
    forall k | 0 <= k < |ps| ensures ps[k].0 < |doms| && ps[k].1 < |doms| {
      BelowMember(xs, |doms|, ps[k].0);
      BelowMember(xs, |doms|, ps[k].1);
    }
  }

  lemma BelowMember(xs: seq<nat>, n: nat, v: nat)
    requires AllBelow(xs, n) && v in xs
    ensures v < n
  {
    var i :| 0 <= i < |xs| && xs[i] == v;
  }

  lemma AppendAssoc<T>(a: seq<T>, b: seq<T>, c: seq<T>)
    ensures (a + b) + c == a + (b + c)
  {
  }

  /** One more row of propagator_addDistinct, from a table and propagator list that the first i rows produced. */
  lemma DistinctStep(d0: seq<Dom>, xs: seq<nat>, i: nat, p0: seq<Propagator>, d: seq<Dom>, ps: seq<Propagator>)
    requires AllBelow(xs, |d0|) && i < |xs|
    requires d == DistinctPrefix(d0, xs, i).0 && ps == p0 + DistinctPrefix(d0, xs, i).1
    ensures |d| == |d0| && PairsBelow(Row(xs, i), |d|)
    ensures var f := NeqFold(d, Row(xs, i));
            f.0 == DistinctPrefix(d0, xs, i + 1).0 && ps + f.1 == p0 + DistinctPrefix(d0, xs, i + 1).1
  {
    NextRow(d0, xs, i);
    var e := DistinctPrefix(d0, xs, i);
    var f := NeqFold(d, Row(xs, i));
    AppendAssoc(p0, e.1, f.1);
  }

  /** One more pair of a row, from a table and propagator list that the first j pairs produced. */
  lemma NeqRowStep(d0: seq<Dom>, row: seq<(nat, nat)>, j: nat, p0: seq<Propagator>, d: seq<Dom>, ps: seq<Propagator>)
    requires PairsBelow(row, |d0|) && j < |row|
    requires PairsBelow(row[..j], |d0|) && d == NeqFold(d0, row[..j]).0 && ps == p0 + NeqFold(d0, row[..j]).1
    ensures |d| == |d0| && row[j].0 < |d| && row[j].1 < |d| && PairsBelow(row[..j + 1], |d0|)
    ensures var f := NeqEffect(d, row[j].0, row[j].1);
            f.0 == NeqFold(d0, row[..j + 1]).0 && ps + f.1 == p0 + NeqFold(d0, row[..j + 1]).1
  {
    NeqFoldStep(d0, row, j);
    var e := NeqFold(d0, row[..j]);
    var f := NeqEffect(d, row[j].0, row[j].1);
    AppendAssoc(p0, e.1, f.1);
  }

  /** Folding over one more pair of a list is one more neq step. */
  lemma NeqFoldStep(doms: seq<Dom>, ps: seq<(nat, nat)>, j: nat)
    requires PairsBelow(ps, |doms|) && j < |ps|
    ensures PairsBelow(ps[..j], |doms|) && PairsBelow(ps[..j + 1], |doms|)
    ensures var e := NeqFold(doms, ps[..j]);
            var f := NeqEffect(e.0, ps[j].0, ps[j].1);
            NeqFold(doms, ps[..j + 1]) == (f.0, e.1 + f.1)
  {
    PairsBelowPrefix(ps, |doms|, j);
    PairsBelowPrefix(ps, |doms|, j + 1);
    var qs := ps[..j + 1];
    assert qs != [] && qs[..|qs| - 1] == ps[..j] && qs[|qs| - 1] == ps[j];
  }

  lemma PairsBelowPrefix(ps: seq<(nat, nat)>, n: nat, j: nat)
    requires PairsBelow(ps, n) && j <= |ps|
    ensures PairsBelow(ps[..j], n)
  {
    forall k | 0 <= k < j ensures ps[..j][k].0 < n && ps[..j][k].1 < n {
      assert ps[..j][k] == ps[k];
    }
  }

  lemma {:induction false} NeqFoldSound(doms: seq<Dom>, ps: seq<(nat, nat)>, vals: seq<nat>)
    requires PairsBelow(ps, |doms|)
    requires Sat(doms, vals) && forall k :: 0 <= k < |ps| ==> vals[ps[k].0] != vals[ps[k].1]
    ensures Sat(NeqFold(doms, ps).0, vals)
    decreases |ps|
  {
    if ps != [] {
      var q := ps[|ps| - 1];
      NeqFoldSound(doms, ps[..|ps| - 1], vals);
      BinEffectSound(BNeq, NeqFold(doms, ps[..|ps| - 1]).0, q.0, q.1, vals);
    }
  }

  /** propagator_addDistinct keeps every assignment giving the listed variables pairwise different values. */
  lemma DistinctKeepsSolutions(doms: seq<Dom>, xs: seq<nat>, vals: seq<nat>)
    requires AllBelow(xs, |doms|) && Sat(doms, vals)
    requires forall i, j :: 0 <= j < i < |xs| ==> vals[xs[i]] != vals[xs[j]]
    ensures Sat(NeqFold(doms, Pairs(xs)).0, vals)
  {
    var ps := Pairs(xs);
    PairsMembers(xs);
    forall k | 0 <= k < |ps|
      ensures ps[k].0 < |doms| && ps[k].1 < |doms| && vals[ps[k].0] != vals[ps[k].1]
    {
      assert ps[k] in ps;
      var i, j :| 0 <= j < i < |xs| && ps[k] == (xs[i], xs[j]);
    }
    NeqFoldSound(doms, ps, vals);
  }

  // ---------------------------------------------------------------------------
  // propagator_addSum / addProduct split their operands in halves and declare
  // an anonymous full-range variable for each intermediate result.
  // ---------------------------------------------------------------------------

  /** The names of t anonymous variables declared from index `from` on. */
  function AnonNames(from: nat, t: nat): (ns: seq<string>)
    ensures |ns| == t
  {
    seq(t, k requires 0 <= k < t => AnonName(from + k))
  }

  /** t fresh SUB..SUP domains. */
  function FullRanges(t: nat): (ds: seq<Dom>)
    ensures |ds| == t
  {
    seq(t, _ => CreateRange(SUB, SUP))
  }

  /** The full range is not solved, so declaring it never touches the constant cache. */
  lemma FullRangeUnsolved()
    ensures GetValue(CreateRange(SUB, SUP)) < 0
  {
    var d := CreateRange(SUB, SUP);
    assert {0, 1} <= d;
    assert |{0, 1}| == 2;
  }

  lemma AnonNamesAppend(n: nat, a: nat, b: nat)
    ensures AnonNames(n, a) + AnonNames(n + a, b) == AnonNames(n, a + b)
  {
  }

  lemma FullRangesAppend(a: nat, b: nat)
    ensures FullRanges(a) + FullRanges(b) == FullRanges(a + b)
  {
  }

  /** Declaring a anonymous variables after names0, then b more, declares a + b of them. */
  lemma AnonGrowth(names0: seq<string>, names1: seq<string>, names: seq<string>, a: nat, b: nat)
    requires names1 == names0 + AnonNames(|names0|, a) && names == names1 + AnonNames(|names1|, b)
    ensures names == names0 + AnonNames(|names0|, a + b)
  {
    AnonNamesAppend(|names0|, a, b);
    AppendAssoc(names0, AnonNames(|names0|, a), AnonNames(|names0| + a, b));
  }

  /** Adding a full-range domains after doms0, then b more, adds a + b of them. */
  lemma RangeGrowth(doms0: seq<Dom>, doms1: seq<Dom>, doms: seq<Dom>, a: nat, b: nat)
    requires doms1 == doms0 + FullRanges(a) && doms == doms1 + FullRanges(b)
    ensures doms == doms0 + FullRanges(a + b)
  {
    FullRangesAppend(a, b);
    AppendAssoc(doms0, FullRanges(a), FullRanges(b));
  }

  /** a temporaries declared after (names0, doms0), then b more: a + b of them. */
  lemma {:induction false} TablesGrowth(names0: seq<string>, names1: seq<string>, names: seq<string>,
                                        doms0: seq<Dom>, doms1: seq<Dom>, doms: seq<Dom>, a: nat, b: nat)
    requires names1 == names0 + AnonNames(|names0|, a) && names == names1 + AnonNames(|names1|, b)
    requires doms1 == doms0 + FullRanges(a) && doms == doms1 + FullRanges(b)
    ensures names == names0 + AnonNames(|names0|, a + b) && doms == doms0 + FullRanges(a + b)
  {
    AnonGrowth(names0, names1, names, a, b);
    RangeGrowth(doms0, doms1, doms, a, b);
  }

  /** The split of k > 2 operands: n - 1 and m - 1 temporaries in the halves, and one more ring triple. */
  lemma SplitCounts(k: nat, n: nat, m: nat)
    requires k > 2 && n == k / 2 && m == k - n
    ensures n >= 1 && m >= 2
    ensures (n - 1) + (m - 1) == k - 2
    ensures 3 * (n - 1) + 3 * (m - 1) + 3 == 3 * (k - 1)
  {
  }

  // ---------------------------------------------------------------------------
  // The decomposition tree of propagator_addSum and propagator_addProduct for
  // two or more operands: halves of floor(k / 2) and the rest, each half of
  // two or more summed into a fresh anonymous variable (declared before its
  // own half is split), a single first operand used as it is, and one ring
  // triple joining the two partial results into res.
  // ---------------------------------------------------------------------------

  /** propagator_addPlus's rings: res = l + r and its two inverses. */
  function PlusRings(l: nat, r: nat, res: nat): (ps: seq<Propagator>)
    ensures |ps| == 3
  {
    RingTriple("plus", "min", DomainPlus, DomainMinus, l, r, res)
  }

  /** A join of the decomposition tree: left and right partial results into a third variable. */
  type Join = (nat, nat, nat)

  /**
   * The joins propagator_addSum makes for xs into res, in the order it makes
   * them, when its temporaries are numbered from next.
   */
  function SplitJoins(xs: seq<nat>, res: nat, next: nat): (js: seq<Join>)
    requires |xs| >= 2
    ensures |js| == |xs| - 1
    decreases |xs|, 0
  {
    if |xs| == 2 then [(xs[0], xs[1], res)]
    else
      var n := |xs| / 2;
      var h := SplitHalf(xs[..n], next);
      h.0 + SplitJoins(xs[n..], h.2, h.2 + 1) + [(h.1, h.2, res)]
  }

  /**
   * The first half of a split: its only operand as it is, or two or more
   * joined into the fresh variable next. Returns the joins, the variable
   * holding the half's result and the next free index.
   */
  function SplitHalf(ys: seq<nat>, next: nat): (h: (seq<Join>, nat, nat))
    requires |ys| >= 1
    ensures |h.0| == |ys| - 1 && h.2 == next + |ys| - 1
    decreases |ys|, 1
  {
    if |ys| == 1 then ([], ys[0], next) else (SplitJoins(ys, next, next + 1), next, next + |ys| - 1)
  }

  /** The plus rings of a list of joins, in order. */
  function PlusRingsOf(js: seq<Join>): (ps: seq<Propagator>)
    ensures |ps| == 3 * |js|
  {
    if js == [] then [] else PlusRingsOf(js[..|js| - 1]) + PlusRings(js[|js| - 1].0, js[|js| - 1].1, js[|js| - 1].2)
  }

  lemma {:induction false} PlusRingsOfAppend(a: seq<Join>, b: seq<Join>)
    ensures PlusRingsOf(a + b) == PlusRingsOf(a) + PlusRingsOf(b)
    decreases |b|
  {
    if b == [] {
      assert a + b == a;
    } else {
      assert (a + b)[..|a + b| - 1] == a + b[..|b| - 1];
      assert (a + b)[|a + b| - 1] == b[|b| - 1];
      PlusRingsOfAppend(a, b[..|b| - 1]);
    }
  }

  lemma {:induction false} PlusRingsOfAreRings(js: seq<Join>)
    ensures AllRings(PlusRingsOf(js))
    decreases |js|
  {
    if js != [] {
      PlusRingsOfAreRings(js[..|js| - 1]);
      var j := js[|js| - 1];
      assert AllRings(PlusRings(j.0, j.1, j.2));
      AllRingsAppend(PlusRingsOf(js[..|js| - 1]), PlusRings(j.0, j.1, j.2));
    }
  }

  /** Two operands are one plus join. */
  lemma SplitJoinsTwo(xs: seq<nat>, res: nat, next: nat)
    requires |xs| == 2
    ensures PlusRingsOf(SplitJoins(xs, res, next)) == PlusRings(xs[0], xs[1], res)
  {
    assert [(xs[0], xs[1], res)][..0] == [];
  }

  /**
   * The joins of a split sum are the first half's, then the second half's
   * into the next free index mid, then the join of the two into res.
   */
  lemma SplitJoinsJoin(xs: seq<nat>, n: nat, res: nat, next: nat, js1: seq<Join>, t1: nat, mid: nat, js2: seq<Join>)
    requires |xs| > 2 && n == |xs| / 2 && mid == next + n - 1
    requires var h := SplitHalf(xs[..n], next); t1 == h.1 && js1 == h.0
    requires js2 == SplitJoins(xs[n..], mid, mid + 1) + [(t1, mid, res)]
    ensures js1 + js2 == SplitJoins(xs, res, next)
  {
    SplitJoinsUnfold(xs, res, next);
  }

  /**
   * The rings after both halves of a split sum and their join into res: the
   * first half's joins js1 from next, then the second half's js2 from mid.
   */
  lemma SumSplitRings(p0: seq<Propagator>, p1: seq<Propagator>, p: seq<Propagator>, xs: seq<nat>, n: nat, res: nat,
                      next: nat, js1: seq<Join>, t1: nat, mid: nat, js2: seq<Join>)
    requires |xs| > 2 && n == |xs| / 2 && mid == next + n - 1
    requires var h := SplitHalf(xs[..n], next); t1 == h.1 && js1 == h.0
    requires js2 == SplitJoins(xs[n..], mid, mid + 1) + [(t1, mid, res)]
    requires p1 == p0 + PlusRingsOf(js1) && p == p1 + PlusRingsOf(js2)
    ensures js1 + js2 == SplitJoins(xs, res, next) && p == p0 + PlusRingsOf(js1 + js2)
  {
    SplitJoinsJoin(xs, n, res, next, js1, t1, mid, js2);
    PlusRingsOfAppend(js1, js2);
    AppendAssoc(p0, PlusRingsOf(js1), PlusRingsOf(js2));
  }

  /**
   * A split sum's tables: the first half's temporaries and joins after
   * (names0, doms0, props0), then the second half's and the final join.
   */
  lemma {:induction false} SumSplitJoined(names0: seq<string>, names1: seq<string>, names: seq<string>,
                       doms0: seq<Dom>, doms1: seq<Dom>, doms: seq<Dom>,
                       props0: seq<Propagator>, props1: seq<Propagator>, props: seq<Propagator>,
                       xs: seq<nat>, res: nat, js1: seq<Join>, t1: nat, js2: seq<Join>)
    requires |xs| > 2
    requires var n := |xs| / 2; var h := SplitHalf(xs[..n], |names0|);
             t1 == h.1 && js1 == h.0 && names1 == names0 + AnonNames(|names0|, n - 1)
             && doms1 == doms0 + FullRanges(n - 1) && props1 == props0 + PlusRingsOf(js1)
    requires var n := |xs| / 2;
             names == names1 + AnonNames(|names1|, |xs| - n - 1) && doms == doms1 + FullRanges(|xs| - n - 1)
             && js2 == SplitJoins(xs[n..], |names1|, |names1| + 1) + [(t1, |names1|, res)]
             && props == props1 + PlusRingsOf(js2)
    ensures names == names0 + AnonNames(|names0|, |xs| - 2) && doms == doms0 + FullRanges(|xs| - 2)
    ensures js1 + js2 == SplitJoins(xs, res, |names0|) && props == props0 + PlusRingsOf(js1 + js2)
  {
    var n := |xs| / 2;
    TablesGrowth(names0, names1, names, doms0, doms1, doms, n - 1, |xs| - n - 1);
    SumSplitRings(props0, props1, props, xs, n, res, |names0|, js1, t1, |names1|, js2);
  }

  /** One unfolding of SplitJoins on three or more operands. */
  lemma SplitJoinsUnfold(xs: seq<nat>, res: nat, next: nat)
    requires |xs| > 2
    ensures var h := SplitHalf(xs[..|xs| / 2], next);
            SplitJoins(xs, res, next) == h.0 + SplitJoins(xs[|xs| / 2..], h.2, h.2 + 1) + [(h.1, h.2, res)]
  {
  }


  /** One more join adds its three rings at the end. */
  lemma PlusRingsOfSnoc(js: seq<Join>, j: Join)
    ensures PlusRingsOf(js + [j]) == PlusRingsOf(js) + PlusRings(j.0, j.1, j.2)
  {
    assert (js + [j])[..|js|] == js;
  }

  /** The sum of the values of the variables xs. */
  function SumOf(vals: seq<nat>, xs: seq<nat>): nat
    requires AllBelow(xs, |vals|)
  {
    if xs == [] then 0 else SumOf(vals, xs[..|xs| - 1]) + vals[xs[|xs| - 1]]
  }

  lemma {:induction false} SumOfAppend(vals: seq<nat>, a: seq<nat>, b: seq<nat>)
    requires AllBelow(a, |vals|) && AllBelow(b, |vals|)
    ensures AllBelow(a + b, |vals|) && SumOf(vals, a + b) == SumOf(vals, a) + SumOf(vals, b)
    decreases |b|
  {
    if b == [] {
      assert a + b == a;
    } else {
      assert (a + b)[..|a + b| - 1] == a + b[..|b| - 1];
      assert (a + b)[|a + b| - 1] == b[|b| - 1];
      SumOfAppend(vals, a, b[..|b| - 1]);
    }
  }

  /** Every join (l, r, o) holds as vals[l] + vals[r] == vals[o]. */
  predicate PlusJoinsHold(js: seq<Join>, vals: seq<nat>)
  {
    forall k :: 0 <= k < |js| ==>
      js[k].0 < |vals| && js[k].1 < |vals| && js[k].2 < |vals| && vals[js[k].0] + vals[js[k].1] == vals[js[k].2]
  }

  /**
   * The decomposition computes the sum: whenever every join of it holds,
   * res holds the sum of xs.
   */
  lemma {:induction false} SplitJoinsSum(xs: seq<nat>, res: nat, next: nat, vals: seq<nat>)
    requires |xs| >= 2 && AllBelow(xs, |vals|) && PlusJoinsHold(SplitJoins(xs, res, next), vals)
    ensures res < |vals| && vals[res] == SumOf(vals, xs)
    decreases |xs|, 0
  {
    if |xs| == 2 {
      PairSum(xs, res, vals);
    } else {
      var n := |xs| / 2;
      var h := SplitHalf(xs[..n], next);
      var js2 := SplitJoins(xs[n..], h.2, h.2 + 1);
      SplitJoinsUnfold(xs, res, next);
      PlusJoinsHoldSplit(h.0, js2, (h.1, h.2, res), vals);
      SplitHalfSum(xs[..n], next, vals);
      SplitJoinsSum(xs[n..], h.2, h.2 + 1, vals);
      assert xs == xs[..n] + xs[n..];
      SumOfAppend(vals, xs[..n], xs[n..]);
    }
  }

  lemma PairSum(xs: seq<nat>, res: nat, vals: seq<nat>)
    requires |xs| == 2 && AllBelow(xs, |vals|) && PlusJoinsHold([(xs[0], xs[1], res)], vals)
    ensures res < |vals| && vals[res] == SumOf(vals, xs)
  {
    var js := [(xs[0], xs[1], res)];
    assert js[0] == (xs[0], xs[1], res);
    assert xs[..1][..0] == [] && xs[..1] == [xs[0]];
    assert SumOf(vals, xs[..1]) == vals[xs[0]];
    assert xs[..|xs| - 1] == xs[..1];
  }

  lemma PlusJoinsHoldSplit(a: seq<Join>, b: seq<Join>, j: Join, vals: seq<nat>)
    requires PlusJoinsHold(a + b + [j], vals)
    ensures PlusJoinsHold(a, vals) && PlusJoinsHold(b, vals)
    ensures j.0 < |vals| && j.1 < |vals| && j.2 < |vals| && vals[j.0] + vals[j.1] == vals[j.2]
  {
    var js := a + b + [j];
    forall k | 0 <= k < |a| ensures js[k] == a[k] { }
    forall k | 0 <= k < |b| ensures js[|a| + k] == b[k] { }
    assert js[|js| - 1] == j;
  }

  lemma {:induction false} SplitHalfSum(ys: seq<nat>, next: nat, vals: seq<nat>)
    requires |ys| >= 1 && AllBelow(ys, |vals|) && PlusJoinsHold(SplitHalf(ys, next).0, vals)
    ensures var h := SplitHalf(ys, next); h.1 < |vals| && vals[h.1] == SumOf(vals, ys)
    decreases |ys|, 1
  {
    if |ys| == 1 {
      assert ys[..0] == [];
    } else {
      SplitJoinsSum(ys, next, next + 1, vals);
    }
  }

  /** propagator_addRingMul's effect: the table MulRule leaves and the ring triple unless it resolved the product. */
  function RingMulEffect(doms: seq<Dom>, l: nat, r: nat, res: nat): (e: (seq<Dom>, seq<Propagator>))
    requires l < |doms| && r < |doms| && res < |doms|
    ensures |e.0| == |doms| && |e.1| <= 3
  {
    var m := MulRule(doms, l, r, res);
    (m.doms, if m.resolved then [] else RingTriple("mul", "div", DomainMul, DomainInvMul, l, r, res))
  }

  /** The domain table and appended rings propagator_addProduct leaves for xs into res. */
  function ProductEffect(doms: seq<Dom>, xs: seq<nat>, res: nat): (e: (seq<Dom>, seq<Propagator>))
    requires |xs| >= 2 && AllBelow(xs, |doms|) && res < |doms|
    ensures |e.0| == |doms| + |xs| - 2
    decreases |xs|, 0
  {
    if |xs| == 2 then RingMulEffect(doms, xs[0], xs[1], res)
    else
      var n := |xs| / 2;
      var h := ProductHalf(doms, xs[..n]);
      var e2 := ProductEffect(h.0 + [CreateRange(SUB, SUP)], xs[n..], |h.0|);
      var j := RingMulEffect(e2.0, h.2, |h.0|, res);
      (j.0, h.1 + e2.1 + j.1)
  }

  /**
   * The first half of a split product: its only operand as it is, or the
   * product of two or more into a fresh variable numbered |doms|. Returns the
   * table, the appended rings and the variable holding the half's product.
   */
  function ProductHalf(doms: seq<Dom>, ys: seq<nat>): (h: (seq<Dom>, seq<Propagator>, nat))
    requires |ys| >= 1 && AllBelow(ys, |doms|)
    ensures |h.0| == |doms| + |ys| - 1 && h.2 < |h.0|
    decreases |ys|, 1
  {
    if |ys| == 1 then (doms, [], ys[0])
    else
      var e := ProductEffect(doms + [CreateRange(SUB, SUP)], ys, |doms|);
      (e.0, e.1, |doms|)
  }

  /**
   * A split product of three or more operands is its first half, then its
   * second half into a fresh variable numbered after the first half's
   * temporaries, then one ring-mul of the two partial products into res.
   */
  lemma ProductEffectSplit(doms0: seq<Dom>, xs: seq<nat>, res: nat, props0: seq<Propagator>, doms1: seq<Dom>, t1: nat,
                           props1: seq<Propagator>, props: seq<Propagator>, doms: seq<Dom>)
    requires |xs| >= 3 && AllBelow(xs, |doms0|) && res < |doms0|
    requires var h := ProductHalf(doms0, xs[..|xs| / 2]); doms1 == h.0 && t1 == h.2 && props1 == props0 + h.1
    requires var e2 := ProductEffect(doms1 + [CreateRange(SUB, SUP)], xs[|xs| / 2..], |doms1|);
             var j := RingMulEffect(e2.0, t1, |doms1|, res);
             doms == j.0 && props == props1 + e2.1 + j.1
    ensures var e := ProductEffect(doms0, xs, res); doms == e.0 && props == props0 + e.1
  {
    var h := ProductHalf(doms0, xs[..|xs| / 2]);
    var e2 := ProductEffect(h.0 + [CreateRange(SUB, SUP)], xs[|xs| / 2..], |h.0|);
    AppendAssoc(props0, h.1, e2.1);
    AppendAssoc(props0, h.1 + e2.1, RingMulEffect(e2.0, h.2, |h.0|, res).1);
  }

  /** d is d0, each domain possibly narrowed, followed by new domains within SUB..SUP. */
  ghost predicate Narrows(d0: seq<Dom>, d: seq<Dom>)
  {
    |d0| <= |d| && (forall i :: 0 <= i < |d0| ==> d[i] <= d0[i])
    && forall i :: |d0| <= i < |d| ==> d[i] <= CreateRange(SUB, SUP)
  }

  /** Every propagator of ps is a 'ring' propagator. */
  ghost predicate AllRings(ps: seq<Propagator>)
  {
    forall p :: p in ps ==> p.name == "ring"
  }

  lemma AllRingsAppend(ps: seq<Propagator>, qs: seq<Propagator>)
    requires AllRings(ps) && AllRings(qs)
    ensures AllRings(ps + qs)
  {
  }

  lemma NarrowsTrans(d0: seq<Dom>, d1: seq<Dom>, d2: seq<Dom>)
    requires Narrows(d0, d1) && Narrows(d1, d2)
    ensures Narrows(d0, d2)
  {
  }

  /** One ring-mul narrows the table in place and appends only rings. */
  lemma RingMulEffectGrows(doms: seq<Dom>, l: nat, r: nat, res: nat)
    requires l < |doms| && r < |doms| && res < |doms|
    ensures var e := RingMulEffect(doms, l, r, res); Narrows(doms, e.0) && AllRings(e.1)
  {
  }

  /**
   * A split product narrows the domains it started with, keeps its
   * temporaries within SUB..SUP and appends at most one ring triple per join.
   */
  lemma {:induction false} ProductEffectGrows(doms: seq<Dom>, xs: seq<nat>, res: nat)
    requires |xs| >= 2 && AllBelow(xs, |doms|) && res < |doms|
    ensures var e := ProductEffect(doms, xs, res);
            Narrows(doms, e.0) && |e.1| <= 3 * (|xs| - 1) && AllRings(e.1)
    decreases |xs|, 0
  {
    if |xs| == 2 {
      RingMulEffectGrows(doms, xs[0], xs[1], res);
    } else {
      var n := |xs| / 2;
      var h := ProductHalf(doms, xs[..n]);
      ProductHalfGrows(doms, xs[..n]);
      var d2 := h.0 + [CreateRange(SUB, SUP)];
      assert Narrows(h.0, d2);
      var e2 := ProductEffect(d2, xs[n..], |h.0|);
      ProductEffectGrows(d2, xs[n..], |h.0|);
      NarrowsTrans(h.0, d2, e2.0);
      NarrowsTrans(doms, h.0, e2.0);
      var j := RingMulEffect(e2.0, h.2, |h.0|, res);
      RingMulEffectGrows(e2.0, h.2, |h.0|, res);
      NarrowsTrans(doms, e2.0, j.0);
      AllRingsAppend(h.1, e2.1);
      AllRingsAppend(h.1 + e2.1, j.1);
    }
  }

  lemma {:induction false} ProductHalfGrows(doms: seq<Dom>, ys: seq<nat>)
    requires |ys| >= 1 && AllBelow(ys, |doms|)
    ensures var h := ProductHalf(doms, ys);
            Narrows(doms, h.0) && |h.1| <= 3 * (|ys| - 1) && AllRings(h.1)
    decreases |ys|, 1
  {
    if |ys| > 1 {
      var d1 := doms + [CreateRange(SUB, SUP)];
      assert Narrows(doms, d1);
      ProductEffectGrows(d1, ys, |doms|);
      NarrowsTrans(doms, d1, ProductEffect(d1, ys, |doms|).0);
    }
  }
}
