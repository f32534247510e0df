/**
 * The value-set abstraction the compiler folds constants with. The library's
 * packed and range-list encodings are not modelled: a domain is the set of
 * values it admits. Every value lies in SUB..SUP and SUB is 0, so a domain is
 * a set of naturals and NO_SUCH_VALUE (negative) never collides with a member.
 */
module Domain {

  type Dom = set<nat>

  const NO_SUCH_VALUE: int := -1
  const SUB: nat := 0
  /** Upper bound of every domain; any non-negative bound serves the model. */
  const SUP: nat := 100000000

  function Empty(): Dom { {} }

  function CreateValue(v: nat): Dom { {v} }

  /** domain_createRange: the values lo..hi inclusive. */
  function CreateRange(lo: nat, hi: nat): (d: Dom)
    ensures forall x: nat :: x in d <==> lo <= x <= hi
    decreases hi - lo
  {
    if lo > hi then {} else {lo} + CreateRange(lo + 1, hi)
  }

  /** Every non-empty domain has a least element: m. */
  lemma {:induction false} Least(d: Dom) returns (m: nat)
    requires d != {}
    ensures m in d && forall y :: y in d ==> m <= y
  {
    var x :| x in d;
    var rest := d - {x};
    if rest == {} {
      m := x;
    } else {
      var mr := Least(rest);
      m := if x < mr then x else mr;
    }
    forall y | y in d ensures m <= y { if y != x { assert y in rest; } }
  }

  /** Every non-empty domain has a greatest element: m. */
  lemma {:induction false} Greatest(d: Dom) returns (m: nat)
    requires d != {}
    ensures m in d && forall y :: y in d ==> y <= m
  {
    var x :| x in d;
    var rest := d - {x};
    if rest == {} {
      m := x;
    } else {
      var mr := Greatest(rest);
      m := if x < mr then mr else x;
    }
    forall y | y in d ensures y <= m { if y != x { assert y in rest; } }
  }

  lemma LeastExists(d: Dom)
    requires d != {}
    ensures exists m :: m in d && forall y :: y in d ==> m <= y
  {
    var m := Least(d);
  }

  lemma GreatestExists(d: Dom)
    requires d != {}
    ensures exists m :: m in d && forall y :: y in d ==> y <= m
  {
    var m := Greatest(d);
  }

  /** domain_min; NO_SUCH_VALUE stands for the empty domain. */
  function Min(d: Dom): (m: int)
    ensures d == {} ==> m == NO_SUCH_VALUE
    ensures d != {} ==> m in d && forall y :: y in d ==> m <= y
  {
    if d == {} then NO_SUCH_VALUE
    else
      LeastExists(d);
      var m :| m in d && forall y :: y in d ==> m <= y; m
  }

  /** domain_max; NO_SUCH_VALUE stands for the empty domain. */
  function Max(d: Dom): (m: int)
    ensures d == {} ==> m == NO_SUCH_VALUE
    ensures d != {} ==> m in d && forall y :: y in d ==> y <= m
  {
    if d == {} then NO_SUCH_VALUE
    else
      GreatestExists(d);
      var m :| m in d && forall y :: y in d ==> y <= m; m
  }

  predicate IsSolved(d: Dom) { |d| == 1 }

  /** domain_getValue: the single member of a solved domain, else NO_SUCH_VALUE. */
  function GetValue(d: Dom): (v: int)
    ensures v >= 0 <==> IsSolved(d)
    ensures v >= 0 ==> d == {v}
    ensures v < 0 ==> v == NO_SUCH_VALUE
  {
    if |d| == 1 then
      var m := Min(d);
      assert d - {m} == {} by { assert |d - {m}| == 0; }
      m
    else NO_SUCH_VALUE
  }

  predicate IsEmpty(d: Dom) { d == {} }

  /** domain_isZero */
  predicate IsZero(d: Dom) { d == {0} }

  /** domain_hasNoZero */
  predicate HasNoZero(d: Dom) { 0 !in d && d != {} }

  /** domain_removeLte: keep the values above t. */
  function RemoveLte(d: Dom, t: int): Dom { set x | x in d && x > t }

  /** domain_removeGte: keep the values below t. */
  function RemoveGte(d: Dom, t: int): Dom { set x | x in d && x < t }

  function RemoveValue(d: Dom, v: int): Dom { set x | x in d && x != v }

  function Intersection(a: Dom, b: Dom): Dom { a * b }

  /** domain_resolveAsBooly: keep the truthy (non-zero) or the falsy (zero) part. */
  function ResolveAsBooly(d: Dom, b: bool): Dom { if b then d - {0} else d * {0} }

  /** domain_plus: pairwise sums, clipped to SUP. */
  function Plus(a: Dom, b: Dom): Dom
  {
    set x, y | x in a && y in b && x + y <= SUP :: x + y
  }

  /** domain_mul: pairwise products, clipped to SUP. */
  function Mul(a: Dom, b: Dom): Dom
  {
    set x, y | x in a && y in b && x * y <= SUP :: x * y
  }

  /** domain_invMul(c, b): the values that times some member of b land in c. */
  function InvMul(c: Dom, b: Dom): Dom
  {
    set x: nat, y | x <= SUP && y in b && x * y in c :: x
  }

  /** domain_mulByValue */
  function MulByValue(d: Dom, v: nat): Dom
  {
    set x | x in d && x * v <= SUP :: x * v
  }

  /** domain_invMulValue: the quotients of the members of d that v divides. */
  function InvMulValue(d: Dom, v: nat): Dom
    requires v > 0
  {
    set x | x in d && x % v == 0 :: x / v
  }
}
