/**
 * The bracket walk shared by the electricity and the gas calculation, as
 * specification functions: how many units each touched bracket takes from
 * the consumption, and the line item it bills. The lemmas state what the
 * walk promises: it bills every unit exactly once, fills the brackets in
 * order, takes from each bracket precisely the units that fall inside its
 * range, and bills more for every additional unit.
 */
module Brackets {
  import opened Rates

  /**
   * The units one bracket takes when `remaining` units are left: all of
   * them if the bracket is unbounded or they fit, otherwise its width.
   */
  function Usage(b: Bracket, remaining: int): (u: int)
    ensures u <= remaining
    ensures Bounded(b) ==> u <= Width(b)
    ensures u == remaining || (Bounded(b) && u == Width(b) < remaining)
    ensures remaining > 0 && (!Bounded(b) || b.min <= b.max) ==> u > 0
  {
    if b.max == Unbounded then remaining
    else if remaining > b.max - b.min + 1 then b.max - b.min + 1
    else remaining
  }

  /**
   * The usage of every bracket the walk touches, in order: the walk stops
   * when the brackets run out or no unit remains.
   */
  function Walk(rates: seq<Bracket>, remaining: int): (w: seq<int>)
    ensures |w| <= |rates|
    ensures remaining <= 0 ==> w == []
    decreases |rates|
  {
    if rates == [] || remaining <= 0 then []
    else
      var u := Usage(rates[0], remaining);
      [u] + Walk(rates[1..], remaining - u)
  }

  /** The line item of every bracket the walk touches, in order. */
  function Charges(rates: seq<Bracket>, remaining: int): seq<real>
    decreases |rates|
  {
    if rates == [] || remaining <= 0 then []
    else
      var u := Usage(rates[0], remaining);
      [Charge(rates[0], u)] + Charges(rates[1..], remaining - u)
  }

  /** The line item of `usage` units of one bracket. */
  function Charge(b: Bracket, usage: int): real {
    usage as real * b.rate
  }

  function SumUnits(s: seq<int>): int {
    if s == [] then 0 else s[0] + SumUnits(s[1..])
  }

  function SumMoney(s: seq<real>): real {
    if s == [] then 0.0 else s[0] + SumMoney(s[1..])
  }

  lemma {:induction false} SumMoneyAppend(a: seq<real>, b: seq<real>)
    ensures SumMoney(a + b) == SumMoney(a) + SumMoney(b)
  {
    if a == [] {
      assert a + b == b;
    } else {
      assert (a + b)[1..] == a[1..] + b;
      SumMoneyAppend(a[1..], b);
    }
  }

  /**
   * Independent reference for a bracket's usage: how many of the units
   * 0 .. n-1 lie inside the bracket's range.
   */
  function UnitsIn(b: Bracket, n: int): int {
    var top := if Bounded(b) && b.max + 1 < n then b.max + 1 else n;
    if top > b.min then top - b.min else 0
  }

  /**
   * There is one line item per touched bracket, and it is the bracket's
   * usage times the bracket's rate.
   */
  lemma {:induction false} ChargesOfWalk(rates: seq<Bracket>, remaining: int)
    ensures var w, c := Walk(rates, remaining), Charges(rates, remaining);
      && |c| == |w|
      && forall j :: 0 <= j < |c| ==> c[j] == Charge(rates[j], w[j])
  {
    if rates != [] && remaining > 0 {
      var u := Usage(rates[0], remaining);
      ChargesOfWalk(rates[1..], remaining - u);
      var w, c := Walk(rates, remaining), Charges(rates, remaining);
      forall j | 1 <= j < |c| ensures c[j] == Charge(rates[j], w[j]) {
        assert rates[j] == rates[1..][j - 1];
      }
    }
  }

  /** The rest of a tiled table tiles the units after its first bracket. */
  lemma TieredTail(rates: seq<Bracket>, start: int)
    requires Tiered(rates, start) && Bounded(rates[0])
    ensures |rates| > 1 && Tiered(rates[1..], rates[0].max + 1)
  {
  }

  /** In a tiled table no bracket begins before the table's start. */
  lemma {:induction false} TieredLowerBound(rates: seq<Bracket>, start: int)
    requires Tiered(rates, start)
    ensures forall j :: 0 <= j < |rates| ==> rates[j].min >= start
  {
    if Bounded(rates[0]) {
      TieredTail(rates, start);
      TieredLowerBound(rates[1..], rates[0].max + 1);
      forall j | 1 <= j < |rates| ensures rates[j].min >= start {
        assert rates[j] == rates[1..][j - 1];
      }
    }
  }

  /**
   * Conservation: on a tiled table the usages of the touched brackets add up
   * to the whole positive consumption, so `remaining` ends at 0.
   */
  lemma {:induction false} WalkConserves(rates: seq<Bracket>, start: int, remaining: int)
    requires Tiered(rates, start) && remaining > 0
    ensures SumUnits(Walk(rates, remaining)) == remaining
  {
    var u := Usage(rates[0], remaining);
    if u < remaining {
      TieredTail(rates, start);
      WalkConserves(rates[1..], rates[0].max + 1, remaining - u);
    }
  }

  /**
   * The walk takes from each bracket exactly the units of 0 .. n-1 that lie
   * in its range, and it touches exactly the brackets that begin below n.
   */
  lemma {:induction false} WalkMatchesRanges(rates: seq<Bracket>, start: int, n: int)
    requires Tiered(rates, start)
    ensures var w := Walk(rates, n - start);
      && (forall j :: 0 <= j < |rates| ==> (j < |w| <==> rates[j].min < n))
      && (forall j :: 0 <= j < |w| ==> w[j] == UnitsIn(rates[j], n))
      && (forall j :: |w| <= j < |rates| ==> UnitsIn(rates[j], n) == 0)
  {
    var w := Walk(rates, n - start);
    TieredLowerBound(rates, start);
    if n - start > 0 {
      var u := Usage(rates[0], n - start);
      if Bounded(rates[0]) {
        TieredTail(rates, start);
        var next := rates[0].max + 1;
        assert Walk(rates[1..], n - start - u) == Walk(rates[1..], n - next);
        WalkMatchesRanges(rates[1..], next, n);
        var w' := Walk(rates[1..], n - next);
        assert w == [u] + w';
        forall j | 1 <= j < |rates|
          ensures (j < |w| <==> rates[j].min < n)
          ensures j < |w| ==> w[j] == UnitsIn(rates[j], n)
          ensures j >= |w| ==> UnitsIn(rates[j], n) == 0
        {
          assert rates[j] == rates[1..][j - 1];
          if j < |w| {
            assert w[j] == w'[j - 1];
          }
        }
      }
    }
  }

  /**
   * A later bracket is entered only when every earlier one was filled to
   * capacity; every touched bracket takes at least one unit and no more
   * than its width.
   */
  lemma FillsInOrder(rates: seq<Bracket>, start: int, remaining: int)
    requires Tiered(rates, start)
    ensures var w := Walk(rates, remaining);
      && (forall j :: 0 <= j < |w| ==> 0 < w[j] && (Bounded(rates[j]) ==> w[j] <= Width(rates[j])))
      && (forall j :: 0 <= j < |w| - 1 ==> Bounded(rates[j]) && w[j] == Width(rates[j]))
  {
    var w := Walk(rates, remaining);
    WalkMatchesRanges(rates, start, start + remaining);
    TieredLowerBound(rates, start);
    forall j | 0 <= j < |w| - 1 ensures Bounded(rates[j]) && w[j] == Width(rates[j]) {
      assert rates[j + 1].min < start + remaining;
    }
  }

  /**
   * Every further unit raises the bracket charges: all rates are positive
   * and a tiled table bills every unit.
   */
  lemma {:induction false} ChargesIncrease(rates: seq<Bracket>, start: int, remaining: int)
    requires Tiered(rates, start) && remaining >= 0
    ensures SumMoney(Charges(rates, remaining + 1)) > SumMoney(Charges(rates, remaining))
  {
    var b := rates[0];
    var u1 := Usage(b, remaining + 1);
    if remaining == 0 {
      assert Charges(rates[1..], remaining + 1 - u1) == [];
    } else {
      var u0 := Usage(b, remaining);
      if Bounded(b) && remaining >= Width(b) {
        TieredTail(rates, start);
        ChargesIncrease(rates[1..], b.max + 1, remaining - Width(b));
      } else {
        assert Charges(rates[1..], remaining + 1 - u1) == [];
        assert Charge(b, u1) > Charge(b, u0);
      }
    }
  }
}
