/** Smooth weighted round robin: how `Queue::shares` splits reads across lanes.

    Lanes are indexed highest first, as `priorities` is. A credit vector persists
    between calls; each pick adds every lane's weight to its credit, takes the lane
    with the greatest credit (the higher lane on a tie) and charges it the total. */
module Fairness {

  function Sum(s: seq<int>): int {
    if s == [] then 0 else s[0] + Sum(s[1..])
  }

  ghost predicate IsWeights(w: seq<int>) {
    w != [] && forall i :: 0 <= i < |w| ==> w[i] > 0
  }

  function Zero(n: nat): (z: seq<int>)
    ensures |z| == n && forall i :: 0 <= i < n ==> z[i] == 0
  {
    seq(n, i => 0)
  }

  function Bumped(credit: seq<int>, w: seq<int>): (r: seq<int>)
    requires |credit| == |w|
    ensures |r| == |w|
  {
    seq(|w|, i requires 0 <= i < |w| => credit[i] + w[i])
  }

  /** `k` holds the greatest value of `c`, and is the first index that does. */
  ghost predicate IsBest(c: seq<int>, k: int) {
    && 0 <= k < |c|
    && (forall i :: 0 <= i < |c| ==> c[i] <= c[k])
    && (forall i :: 0 <= i < k ==> c[i] < c[k])
  }

  lemma {:induction false} BestExists(c: seq<int>, i: nat) returns (k: nat)
    requires i < |c|
    ensures i <= k < |c|
    ensures forall j :: i <= j < |c| ==> c[j] <= c[k]
    ensures forall j :: i <= j < k ==> c[j] < c[k]
    decreases |c| - i
  {
    k := i;
    if i + 1 < |c| {
      var rest := BestExists(c, i + 1);
      if c[i] < c[rest] { k := rest; }
    }
  }

  ghost function Best(c: seq<int>): (k: nat)
    requires c != []
    ensures IsBest(c, k)
  {
    assert exists k :: IsBest(c, k) by {
      var k := BestExists(c, 0);
      assert IsBest(c, k);
    }
    var k :| IsBest(c, k);
    k
  }

  /** One pick: the lane taken, and the credit after charging it. */
  ghost function Pick(credit: seq<int>, w: seq<int>): (k: nat)
    requires |credit| == |w| > 0
    ensures k < |w|
  {
    Best(Bumped(credit, w))
  }

  ghost function Charged(credit: seq<int>, w: seq<int>): (r: seq<int>)
    requires |credit| == |w| > 0
    ensures |r| == |w|
  {
    var b, k := Bumped(credit, w), Pick(credit, w);
    b[k := b[k] - Sum(w)]
  }

  /** The lanes taken by `n` picks in a row, and the credit they leave behind. */
  ghost function Picks(credit: seq<int>, w: seq<int>, n: nat): (p: seq<nat>)
    requires |credit| == |w| > 0
    ensures |p| == n
    decreases n
  {
    if n == 0 then [] else [Pick(credit, w)] + Picks(Charged(credit, w), w, n - 1)
  }

  ghost function CreditAfter(credit: seq<int>, w: seq<int>, n: nat): (r: seq<int>)
    requires |credit| == |w| > 0
    ensures |r| == |w|
    decreases n
  {
    if n == 0 then credit else CreditAfter(Charged(credit, w), w, n - 1)
  }

  function Count(picks: seq<nat>, lane: nat): nat {
    if picks == [] then 0
    else (if picks[0] == lane then 1 else 0) + Count(picks[1..], lane)
  }

  // ----- sums

  lemma {:induction false} SumUpdate(s: seq<int>, k: nat, v: int)
    requires k < |s|
    ensures Sum(s[k := v]) == Sum(s) - s[k] + v
  {
    if k == 0 {
      assert s[k := v][1..] == s[1..];
    } else {
      assert s[k := v][1..] == s[1..][k - 1 := v];
      SumUpdate(s[1..], k - 1, v);
    }
  }

  lemma {:induction false} SumBumped(credit: seq<int>, w: seq<int>)
    requires |credit| == |w|
    ensures Sum(Bumped(credit, w)) == Sum(credit) + Sum(w)
  {
    if w != [] {
      assert Bumped(credit, w)[1..] == Bumped(credit[1..], w[1..]);
      SumBumped(credit[1..], w[1..]);
    }
  }

  lemma {:induction false} SumAtLeast(s: seq<int>, low: int)
    requires forall i :: 0 <= i < |s| ==> s[i] >= low
    ensures Sum(s) >= |s| * low
  {
    if s != [] {
      SumAtLeast(s[1..], low);
      assert |s| * low == low + (|s| - 1) * low;
    }
  }

  lemma {:induction false} SumAtMost(s: seq<int>, high: int)
    requires forall i :: 0 <= i < |s| ==> s[i] <= high
    ensures Sum(s) <= |s| * high
  {
    if s != [] {
      SumAtMost(s[1..], high);
      assert |s| * high == high + (|s| - 1) * high;
    }
  }

  lemma {:induction false} SumPointwise(a: seq<int>, b: seq<int>)
    requires |a| == |b|
    requires forall i :: 0 <= i < |a| ==> a[i] <= b[i]
    ensures Sum(a) <= Sum(b)
    ensures Sum(a) == Sum(b) ==> a == b
  {
    if a != [] {
      SumPointwise(a[1..], b[1..]);
      if Sum(a) == Sum(b) {
        assert a == [a[0]] + a[1..] && b == [b[0]] + b[1..];
      }
    }
  }

  lemma {:induction false} SumPositive(w: seq<int>)
    requires IsWeights(w)
    ensures Sum(w) >= |w|
  {
    SumAtLeast(w, 1);
  }

  // ----- the credit invariant

  /** What the credit vector satisfies between any two picks. */
  ghost predicate Settled(credit: seq<int>, w: seq<int>) {
    && IsWeights(w)
    && |credit| == |w|
    && Sum(credit) == 0
    && forall i :: 0 <= i < |w| ==> credit[i] > -Sum(w)
  }

  lemma ZeroSettled(w: seq<int>)
    requires IsWeights(w)
    ensures Settled(Zero(|w|), w)
  {
    SumPositive(w);
    SumAtLeast(Zero(|w|), 0);
    SumAtMost(Zero(|w|), 0);
  }

  lemma ChargedSettled(credit: seq<int>, w: seq<int>)
    requires Settled(credit, w)
    ensures Settled(Charged(credit, w), w)
  {
    var b, k := Bumped(credit, w), Pick(credit, w);
    SumBumped(credit, w);
    SumUpdate(b, k, b[k] - Sum(w));
    SumPositive(w);
    if b[k] <= 0 {
      SumAtMost(b, 0);
      assert false;
    }
  }

  lemma {:induction false} CreditSettled(credit: seq<int>, w: seq<int>, n: nat)
    requires Settled(credit, w)
    ensures Settled(CreditAfter(credit, w, n), w)
    decreases n
  {
    if n > 0 {
      ChargedSettled(credit, w);
      CreditSettled(Charged(credit, w), w, n - 1);
    }
  }

  /** A call for `a + b` picks does what a call for `a` and then one for `b` do. */
  lemma {:induction false} SplitCredit(credit: seq<int>, w: seq<int>, a: nat, b: nat)
    requires |credit| == |w| > 0
    ensures CreditAfter(credit, w, a + b) == CreditAfter(CreditAfter(credit, w, a), w, b)
    decreases a
  {
    if a > 0 {
      SplitCredit(Charged(credit, w), w, a - 1, b);
    }
  }

  lemma {:induction false} SplitPicks(credit: seq<int>, w: seq<int>, a: nat, b: nat)
    requires |credit| == |w| > 0
    ensures Picks(credit, w, a + b) == Picks(credit, w, a) + Picks(CreditAfter(credit, w, a), w, b)
    decreases a
  {
    if a > 0 {
      SplitPicks(Charged(credit, w), w, a - 1, b);
    } else {
      assert Picks(credit, w, a) == [];
    }
  }

  /** `n * x` by repeated addition, which keeps the ledger linear. */
  ghost function Times(n: nat, x: int): int {
    if n == 0 then 0 else x + Times(n - 1, x)
  }

  lemma {:induction false} TimesIsProduct(n: nat, x: int)
    ensures Times(n, x) == n * x
  {
    if n > 0 {
      TimesIsProduct(n - 1, x);
    }
  }

  /** Credit is an exact ledger: what a lane was owed less what it was given. */
  lemma {:induction false} Ledger(credit: seq<int>, w: seq<int>, n: nat, i: nat)
    requires |credit| == |w| > 0 && i < |w|
    ensures CreditAfter(credit, w, n)[i]
         == credit[i] + Times(n, w[i]) - Times(Count(Picks(credit, w, n), i), Sum(w))
    decreases n
  {
    if n > 0 {
      var next := Charged(credit, w);
      var tail := Picks(next, w, n - 1);
      Ledger(next, w, n - 1, i);
      assert Picks(credit, w, n) == [Pick(credit, w)] + tail;
      CountCons(Pick(credit, w), tail, i);
    }
  }

  lemma CountCons(k: nat, tail: seq<nat>, i: nat)
    ensures Count([k] + tail, i) == (if k == i then 1 else 0) + Count(tail, i)
  {
    assert ([k] + tail)[1..] == tail;
  }

  lemma LedgerProduct(credit: seq<int>, w: seq<int>, n: nat, i: nat)
    requires |credit| == |w| > 0 && i < |w|
    ensures CreditAfter(credit, w, n)[i]
         == credit[i] + n * w[i] - Count(Picks(credit, w, n), i) * Sum(w)
  {
    Ledger(credit, w, n, i);
    TimesIsProduct(n, w[i]);
    TimesIsProduct(Count(Picks(credit, w, n), i), Sum(w));
  }

  lemma {:induction false} PicksInRange(credit: seq<int>, w: seq<int>, n: nat)
    requires |credit| == |w| > 0
    ensures forall j :: 0 <= j < n ==> Picks(credit, w, n)[j] < |w|
    decreases n
  {
    if n > 0 {
      PicksInRange(Charged(credit, w), w, n - 1);
    }
  }

  function Tally(picks: seq<nat>, lanes: nat): (t: seq<int>)
    ensures |t| == lanes
  {
    seq(lanes, i requires 0 <= i < lanes => Count(picks, i))
  }

  lemma {:induction false} TallySum(picks: seq<nat>, lanes: nat)
    requires forall j :: 0 <= j < |picks| ==> picks[j] < lanes
    ensures Sum(Tally(picks, lanes)) == |picks|
  {
    if picks == [] {
      SumAtLeast(Tally(picks, lanes), 0);
      SumAtMost(Tally(picks, lanes), 0);
    } else {
      var rest, k := Tally(picks[1..], lanes), picks[0];
      TallySum(picks[1..], lanes);
      assert Tally(picks, lanes) == rest[k := rest[k] + 1];
      SumUpdate(rest, k, rest[k] + 1);
    }
  }

  // ----- fairness

  lemma ProductBelow(total: int, x: int)
    requires total > 0
    ensures x < 0 ==> total * x <= -total
    ensures x > 0 ==> total * x >= total
  {
    if x < 0 {
      ProductNat(total, -x - 1);
      assert total * (-x - 1) == -(total * x) - total;
    } else if x > 0 {
      ProductNat(total, x - 1);
      assert total * (x - 1) == total * x - total;
    }
  }

  lemma ProductNat(a: nat, b: nat)
    ensures a * b >= 0
  {
  }

  lemma GivenAtMostDue(total: int, weight: int, given: int)
    requires total > 0 && total * weight - given * total > -total
    ensures given <= weight
  {
    assert total * weight - given * total == total * (weight - given);
    ProductBelow(total, weight - given);
  }

  /** In one round from rest no lane gets more than its weight. */
  lemma RoundAtMostWeight(w: seq<int>, i: nat)
    requires IsWeights(w) && i < |w|
    ensures Sum(w) > 0 && Count(Picks(Zero(|w|), w, Sum(w)), i) <= w[i]
  {
    SumPositive(w);
    var z, total := Zero(|w|), Sum(w);
    ZeroSettled(w);
    CreditSettled(z, w, total);
    LedgerProduct(z, w, total, i);
    GivenAtMostDue(total, w[i], Count(Picks(z, w, total), i));
  }

  /** Who got exactly its weight in one round owes and is owed nothing. */
  lemma ExactRoundSettles(w: seq<int>, i: nat)
    requires IsWeights(w) && i < |w| && Sum(w) > 0 && Count(Picks(Zero(|w|), w, Sum(w)), i) == w[i]
    ensures CreditAfter(Zero(|w|), w, Sum(w))[i] == 0
  {
    LedgerProduct(Zero(|w|), w, Sum(w), i);
  }

  /** One full round from rest gives every lane exactly its weight and ends at rest. */
  lemma FirstRound(w: seq<int>)
    requires IsWeights(w)
    ensures Sum(w) > 0
    ensures CreditAfter(Zero(|w|), w, Sum(w)) == Zero(|w|)
    ensures Tally(Picks(Zero(|w|), w, Sum(w)), |w|) == w
  {
    SumPositive(w);
    var z, total := Zero(|w|), Sum(w);
    var picks := Picks(z, w, total);
    var tally := Tally(picks, |w|);
    forall i | 0 <= i < |w|
      ensures tally[i] <= w[i]
    {
      RoundAtMostWeight(w, i);
    }
    PicksInRange(z, w, total);
    TallySum(picks, |w|);
    SumPointwise(tally, w);
    forall i | 0 <= i < |w|
      ensures CreditAfter(z, w, total)[i] == 0
    {
      assert tally[i] == Count(picks, i);
      ExactRoundSettles(w, i);
    }
  }

  /** The credit state repeats every `Sum(w)` picks, from any point of a run. */
  lemma Periodic(w: seq<int>, n: nat)
    requires IsWeights(w)
    ensures Sum(w) > 0
    ensures CreditAfter(Zero(|w|), w, n + Sum(w)) == CreditAfter(Zero(|w|), w, n)
  {
    FirstRound(w);
    SplitCredit(Zero(|w|), w, Sum(w), n);
  }

  lemma Cancel(total: int, weight: int, given: int)
    requires total > 0 && total * weight - given * total == 0
    ensures given == weight
  {
    assert total * weight - given * total == total * (weight - given);
    ProductBelow(total, weight - given);
  }

  /** Exact fairness: every window of `Sum(w)` consecutive picks, wherever it starts,
      gives lane `i` exactly `w[i]` of them. */
  lemma EveryWindowIsExact(w: seq<int>, start: nat, i: nat)
    requires IsWeights(w) && i < |w|
    ensures Sum(w) > 0
    ensures Count(Picks(Zero(|w|), w, start + Sum(w))[start..], i) == w[i]
  {
    var z, total := Zero(|w|), Sum(w);
    Periodic(w, start);
    SplitPicks(z, w, start, total);
    SplitCredit(z, w, start, total);
    var here := CreditAfter(z, w, start);
    assert Picks(z, w, start + total)[start..] == Picks(here, w, total);
    LedgerProduct(here, w, total, i);
    Cancel(total, w[i], Count(Picks(here, w, total), i));
  }

  /** A lane is never a whole pick ahead of its due, and never further behind than the
      other lanes can each be ahead. */
  lemma NeverFarFromDue(w: seq<int>, n: nat, i: nat)
    requires IsWeights(w) && i < |w|
    ensures Count(Picks(Zero(|w|), w, n), i) * Sum(w) < n * w[i] + Sum(w)
    ensures n * w[i] - (|w| - 1) * (Sum(w) - 1) <= Count(Picks(Zero(|w|), w, n), i) * Sum(w)
  {
    var z := Zero(|w|);
    ZeroSettled(w);
    CreditSettled(z, w, n);
    LedgerProduct(z, w, n, i);
    CreditCeiling(CreditAfter(z, w, n), w, i);
  }

  /** A settled credit is bounded above as well: the other lanes owe at most this much. */
  lemma CreditCeiling(credit: seq<int>, w: seq<int>, i: nat)
    requires Settled(credit, w) && i < |w|
    ensures credit[i] <= (|w| - 1) * (Sum(w) - 1)
  {
    var low := 1 - Sum(w);
    SumUpdate(credit, i, low);
    SumAtLeast(credit[i := low], low);
    Rearrange(|w|, low);
  }

  lemma Rearrange(n: int, low: int)
    ensures n * low == low - (n - 1) * (-low)
  {
  }

  // ----- the code

  /** The part of `Queue` that `shares` works on. */
  class Credits {
    const weights: seq<int>
    const credit: array<int>

    ghost predicate Valid()
      reads this, credit
    {
      IsWeights(weights) && credit.Length == |weights|
    }

    constructor (weights: seq<int>)
      requires IsWeights(weights)
      ensures Valid() && fresh(credit) && this.weights == weights
      ensures credit[..] == Zero(|weights|)
    {
      this.weights := weights;
      credit := new int[|weights|](i => 0);
      new;
      assert credit[..] == Zero(|weights|);
    }

    /** Adds every lane's weight to its credit. */
    method Bump()
      requires Valid()
      modifies credit
      ensures credit[..] == Bumped(old(credit[..]), weights)
    {
      var i := 0;
      while i < credit.Length
        invariant 0 <= i <= credit.Length
        invariant forall j :: 0 <= j < i ==> credit[j] == old(credit[j]) + weights[j]
        invariant forall j :: i <= j < credit.Length ==> credit[j] == old(credit[j])
      {
        credit[i] := credit[i] + weights[i];
        i := i + 1;
      }
      assert credit[..] == Bumped(old(credit[..]), weights);
    }

    /** The richest lane, scanning from the lowest lane up so a tie goes to the higher. */
    method Richest() returns (lane: nat)
      requires Valid()
      ensures IsBest(credit[..], lane)
    {
      lane := credit.Length - 1;
      var i := credit.Length - 1;
      while i > 0
        invariant 0 <= i <= lane < credit.Length
        invariant forall j :: i <= j < credit.Length ==> credit[j] <= credit[lane]
        invariant forall j :: i <= j < lane ==> credit[j] < credit[lane]
      {
        i := i - 1;
        if credit[i] >= credit[lane] {
          lane := i;
        }
      }
    }

    method Shares(count: int) returns (shares: seq<int>)
      requires Valid()
      modifies credit
      ensures Valid()
      ensures var n := if count < 0 then 0 else count;
              && credit[..] == CreditAfter(old(credit[..]), weights, n)
              && shares == Tally(Picks(old(credit[..]), weights, n), |weights|)
              && Sum(shares) == n
    {
      var n := if count < 0 then 0 else count;
      ghost var start := credit[..];
      var total := 0;
      var w := 0;
      assert weights[..|weights|] == weights;
      while w < |weights|
        invariant 0 <= w <= |weights|
        invariant total == Sum(weights) - Sum(weights[w..])
      {
        total := total + weights[w];
        w := w + 1;
      }
      shares := seq(|weights|, i => 0);
      ghost var picks := [];
      var k := 0;
      while k < n
        invariant 0 <= k <= n
        invariant picks == Picks(start, weights, k)
        invariant credit[..] == CreditAfter(start, weights, k)
        invariant shares == Tally(picks, |weights|)
      {
        ghost var now := credit[..];
        Bump();
        var lane := Richest();
        BestIsUnique(credit[..], lane, Pick(now, weights));
        credit[lane] := credit[lane] - total;
        shares := shares[lane := shares[lane] + 1];
        SplitPicks(start, weights, k, 1);
        SplitCredit(start, weights, k, 1);
        assert Picks(now, weights, 1) == [lane];
        CountAppend(picks, lane);
        picks := picks + [lane];
        assert credit[..] == Charged(now, weights) == CreditAfter(now, weights, 1);
        k := k + 1;
      }
      PicksInRange(start, weights, n);
      TallySum(picks, |weights|);
    }
  }

  lemma BestIsUnique(c: seq<int>, a: nat, b: nat)
    requires IsBest(c, a) && IsBest(c, b)
    ensures a == b
  {
    assert c[a] <= c[b] && c[b] <= c[a];
  }

  lemma {:induction false} CountAppend(picks: seq<nat>, lane: nat)
    ensures forall i: nat :: Count(picks + [lane], i) == Count(picks, i) + (if i == lane then 1 else 0)
  {
    if picks != [] {
      assert (picks + [lane])[1..] == picks[1..] + [lane];
      CountAppend(picks[1..], lane);
    }
  }
}
