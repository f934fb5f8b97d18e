/** The credit engine: how subscription records become credit figures.
    Every function is total; a non-finite number contributes 0. */
module Calc {
  import opened JsValues
  import opened Types

  /** A finite number as it is; NaN and the infinities count as 0. */
  function FiniteOrZero(n: Num): (r: real)
    ensures n.Finite? ==> r == n.r
    ensures r == 0.0 || n == Finite(r)
  {
    if IsFinite(n) then n.r else 0.0
  }

  /** A finite number raised to at least 0; NaN and the infinities count as 0. */
  function Clamp(n: Num): (r: real)
    ensures r >= 0.0
    ensures n.Finite? ==> r >= n.r
    ensures r == 0.0 || n == Finite(r)
  {
    if IsFinite(n) && n.r > 0.0 then n.r else 0.0
  }

  /** The sum of the numbers, added front to back starting from 0. */
  function Sum(xs: seq<real>): (r: real)
    ensures |xs| == 0 ==> r == 0.0
    ensures (forall i :: 0 <= i < |xs| ==> xs[i] >= 0.0) ==> r >= 0.0
  {
    if |xs| == 0 then 0.0 else Sum(xs[..|xs| - 1]) + xs[|xs| - 1]
  }

  // ---------------------------------------------------------------------------
  // Per subscription
  // ---------------------------------------------------------------------------

  /** Reset cycles still available: none for a pay-per-use plan, otherwise
      the record's own count, passed through even when it is negative or
      not finite. */
  function RemainingResetTimes(s: Subscription): (r: Num)
    ensures s.subscriptionPlan.planType == PayPerUse ==> r == Finite(0.0)
    ensures s.subscriptionPlan.planType != PayPerUse ==> r == s.resetTimes
  {
    if s.subscriptionPlan.planType == PayPerUse then Finite(0.0) else s.resetTimes
  }

  /** The spending power of one subscription: what it holds now plus what
      every remaining reset would refill. */
  function CalcTotalPerSub(s: Subscription): (r: real)
    ensures r >= Clamp(s.currentCredits) >= 0.0
    ensures s.currentCredits.Finite? ==> r >= s.currentCredits.r
    ensures s.subscriptionPlan.planType == PayPerUse ==> r == Clamp(s.currentCredits)
  {
    var credits := Clamp(s.currentCredits);
    var limit := Clamp(s.subscriptionPlan.creditLimit);
    var resets := RemainingResetTimes(s);
    var times := Clamp(resets);
    ProductNonNegative(times, limit);
    credits + times * limit
  }

  lemma ProductNonNegative(a: real, b: real)
    requires a >= 0.0 && b >= 0.0
    ensures a * b >= 0.0
  {
  }

  /** The formula the engine implements:
      clamp(credits) + clamp(remaining resets) * clamp(limit). */
  lemma TotalPerSubFormula(s: Subscription)
    ensures CalcTotalPerSub(s) ==
      Clamp(s.currentCredits)
      + (if s.subscriptionPlan.planType == PayPerUse then 0.0 else Clamp(s.resetTimes))
        * Clamp(s.subscriptionPlan.creditLimit)
  {
  }

  /** A non-finite or negative field counts exactly as 0 would. */
  lemma TotalPerSubGuards(s: Subscription)
    ensures !s.currentCredits.Finite? || s.currentCredits.r < 0.0 ==>
      CalcTotalPerSub(s) == CalcTotalPerSub(s.(currentCredits := Finite(0.0)))
    ensures !s.resetTimes.Finite? || s.resetTimes.r < 0.0 ==>
      CalcTotalPerSub(s) == CalcTotalPerSub(s.(resetTimes := Finite(0.0)))
    ensures !s.subscriptionPlan.creditLimit.Finite? || s.subscriptionPlan.creditLimit.r < 0.0 ==>
      CalcTotalPerSub(s) ==
      CalcTotalPerSub(s.(subscriptionPlan := s.subscriptionPlan.(creditLimit := Finite(0.0))))
  {
  }

  /** More resets or a larger limit never lower the total. */
  lemma TotalPerSubMonotone(s: Subscription, t: Subscription)
    requires t.currentCredits == s.currentCredits
    requires t.subscriptionPlan.planType == s.subscriptionPlan.planType
    requires Clamp(t.resetTimes) >= Clamp(s.resetTimes)
    requires Clamp(t.subscriptionPlan.creditLimit) >= Clamp(s.subscriptionPlan.creditLimit)
    ensures CalcTotalPerSub(t) >= CalcTotalPerSub(s)
  {
    var a, b := Clamp(s.resetTimes), Clamp(s.subscriptionPlan.creditLimit);
    var c, d := Clamp(t.resetTimes), Clamp(t.subscriptionPlan.creditLimit);
    assert c * d - a * b == (c - a) * d + a * (d - b);
    ProductNonNegative(c - a, d);
    ProductNonNegative(a, d - b);
  }

  /** 12.34 credits, 2 resets of 20 on a standard plan: 52.34. */
  lemma TotalPerSubExample()
    ensures CalcTotalPerSub(Subscription(true, Finite(12.34), Finite(2.0),
                                         SubscriptionPlan(Finite(20.0), "STANDARD"))) == 52.34
  {
  }

  // ---------------------------------------------------------------------------
  // Aggregates
  // ---------------------------------------------------------------------------

  /** The active entries, in their original order. */
  function FilterActive(subs: seq<Subscription>): (r: seq<Subscription>)
    ensures |r| <= |subs|
    ensures forall i :: 0 <= i < |r| ==> r[i].isActive
    ensures forall x :: x in r <==> x in subs && x.isActive
  {
    if |subs| == 0 then []
    else (if subs[0].isActive then [subs[0]] else []) + FilterActive(subs[1..])
  }

  /** The sum of the balances, front to back from 0, a non-finite one counting as 0. */
  function CreditsFold(subs: seq<Subscription>): (r: real)
    ensures |subs| == 0 ==> r == 0.0
    ensures (forall i :: 0 <= i < |subs| ==> FiniteOrZero(subs[i].currentCredits) >= 0.0) ==> r >= 0.0
  {
    if |subs| == 0 then 0.0
    else CreditsFold(subs[..|subs| - 1]) + FiniteOrZero(subs[|subs| - 1].currentCredits)
  }

  /** `calcActiveSum`: current credits of the active entries, non-finite as 0,
      negatives not clamped. */
  function CalcActiveSum(subs: seq<Subscription>): (r: real)
    ensures |subs| == 0 ==> r == 0.0
  {
    CreditsFold(FilterActive(subs))
  }

  /** Each subscription's total, one per entry, in order. */
  function MapTotals(subs: seq<Subscription>): (r: seq<real>)
    ensures |r| == |subs|
    ensures forall i :: 0 <= i < |subs| ==> r[i] == CalcTotalPerSub(subs[i])
  {
    if |subs| == 0 then [] else [CalcTotalPerSub(subs[0])] + MapTotals(subs[1..])
  }

  /** `calcTotalSum`: the totals of every entry, active or not. */
  function CalcTotalSum(subs: seq<Subscription>): (r: real)
    ensures r >= 0.0
    ensures |subs| == 0 ==> r == 0.0
  {
    Sum(MapTotals(subs))
  }

  // ---------------------------------------------------------------------------
  // Reference definitions: one entry at a time, from the front
  // ---------------------------------------------------------------------------

  /** What an entry adds to the active sum. */
  function ActiveContribution(s: Subscription): real {
    if s.isActive then FiniteOrZero(s.currentCredits) else 0.0
  }

  ghost function ActiveSumSpec(subs: seq<Subscription>): real {
    if |subs| == 0 then 0.0 else ActiveContribution(subs[0]) + ActiveSumSpec(subs[1..])
  }

  ghost function TotalSumSpec(subs: seq<Subscription>): real {
    if |subs| == 0 then 0.0 else CalcTotalPerSub(subs[0]) + TotalSumSpec(subs[1..])
  }

  // ---------------------------------------------------------------------------
  // Lemmas
  // ---------------------------------------------------------------------------

  lemma {:induction false} SumAppend(a: seq<real>, b: seq<real>)
    ensures Sum(a + b) == Sum(a) + Sum(b)
  {
    if |b| == 0 {
      assert a + b == a;
    } else {
      assert (a + b)[..|a + b| - 1] == a + b[..|b| - 1];
      SumAppend(a, b[..|b| - 1]);
    }
  }

  lemma {:induction false} CreditsFoldAppend(a: seq<Subscription>, b: seq<Subscription>)
    ensures CreditsFold(a + b) == CreditsFold(a) + CreditsFold(b)
  {
    if |b| == 0 {
      assert a + b == a;
    } else {
      assert (a + b)[..|a + b| - 1] == a + b[..|b| - 1];
      CreditsFoldAppend(a, b[..|b| - 1]);
    }
  }

  lemma {:induction false} FilterActiveAppend(a: seq<Subscription>, b: seq<Subscription>)
    ensures FilterActive(a + b) == FilterActive(a) + FilterActive(b)
  {
    if |a| == 0 {
      assert a + b == b;
    } else {
      assert (a + b)[1..] == a[1..] + b;
      FilterActiveAppend(a[1..], b);
    }
  }

  lemma {:induction false} MapTotalsAppend(a: seq<Subscription>, b: seq<Subscription>)
    ensures MapTotals(a + b) == MapTotals(a) + MapTotals(b)
  {
  }

  /** The active sum is additive over concatenation. */
  lemma ActiveSumAppend(a: seq<Subscription>, b: seq<Subscription>)
    ensures CalcActiveSum(a + b) == CalcActiveSum(a) + CalcActiveSum(b)
  {
    FilterActiveAppend(a, b);
    CreditsFoldAppend(FilterActive(a), FilterActive(b));
  }

  /** The total sum is additive over concatenation. */
  lemma TotalSumAppend(a: seq<Subscription>, b: seq<Subscription>)
    ensures CalcTotalSum(a + b) == CalcTotalSum(a) + CalcTotalSum(b)
  {
    MapTotalsAppend(a, b);
    SumAppend(MapTotals(a), MapTotals(b));
  }

  /** The sum of a single entry. */
  lemma SingletonSums(s: Subscription)
    ensures CalcActiveSum([s]) == ActiveContribution(s)
    ensures CalcTotalSum([s]) == CalcTotalPerSub(s)
  {
    assert [s][1..] == [];
    var active := FilterActive([s]);
    assert active == if s.isActive then [s] else [];
    if s.isActive {
      assert active[..0] == [];
      assert CreditsFold(active) == CreditsFold([]) + FiniteOrZero(s.currentCredits);
    }
    var totals := MapTotals([s]);
    assert totals == [CalcTotalPerSub(s)];
    assert totals[..0] == [];
    assert Sum(totals) == Sum([]) + CalcTotalPerSub(s);
  }

  /** `calcActiveSum` agrees with the one-entry-at-a-time reference. */
  lemma {:induction false} ActiveSumMatchesSpec(subs: seq<Subscription>)
    ensures CalcActiveSum(subs) == ActiveSumSpec(subs)
  {
    if |subs| > 0 {
      assert subs == [subs[0]] + subs[1..];
      ActiveSumAppend([subs[0]], subs[1..]);
      SingletonSums(subs[0]);
      ActiveSumMatchesSpec(subs[1..]);
    }
  }

  /** `calcTotalSum` is the sum of `calcTotalPerSub` over every entry. */
  lemma {:induction false} TotalSumMatchesSpec(subs: seq<Subscription>)
    ensures CalcTotalSum(subs) == TotalSumSpec(subs)
  {
    if |subs| > 0 {
      assert subs == [subs[0]] + subs[1..];
      TotalSumAppend([subs[0]], subs[1..]);
      SingletonSums(subs[0]);
      TotalSumMatchesSpec(subs[1..]);
    }
  }

  /** An inactive entry can be inserted anywhere, or removed, without changing
      the active sum; the total sum still counts it. */
  lemma InactiveEntry(a: seq<Subscription>, x: Subscription, b: seq<Subscription>)
    requires !x.isActive
    ensures CalcActiveSum(a + [x] + b) == CalcActiveSum(a + b)
    ensures CalcTotalSum(a + [x] + b) == CalcTotalSum(a + b) + CalcTotalPerSub(x)
  {
    ActiveSumAppend(a + [x], b);
    ActiveSumAppend(a, [x]);
    ActiveSumAppend(a, b);
    TotalSumAppend(a + [x], b);
    TotalSumAppend(a, [x]);
    TotalSumAppend(a, b);
    SingletonSums(x);
  }

  /** Only the active entries matter to the active sum. */
  lemma {:induction false} ActiveSumOfFiltered(subs: seq<Subscription>)
    ensures CalcActiveSum(FilterActive(subs)) == CalcActiveSum(subs)
  {
    FilterActiveIdempotent(subs);
  }

  lemma {:induction false} FilterActiveIdempotent(subs: seq<Subscription>)
    ensures FilterActive(FilterActive(subs)) == FilterActive(subs)
  {
    if |subs| > 0 {
      var head := if subs[0].isActive then [subs[0]] else [];
      FilterActiveAppend(head, FilterActive(subs[1..]));
      assert FilterActive(head) == head by {
        if subs[0].isActive {
          assert FilterActive([subs[0]])[1..] == [];
        }
      }
      FilterActiveIdempotent(subs[1..]);
    }
  }

  /** The total sum bounds the active sum: clamping only raises an entry and
      the total never drops an entry. */
  lemma {:induction false} TotalSumBoundsActiveSum(subs: seq<Subscription>)
    ensures CalcTotalSum(subs) >= CalcActiveSum(subs)
  {
    if |subs| > 0 {
      assert subs == [subs[0]] + subs[1..];
      ActiveSumAppend([subs[0]], subs[1..]);
      TotalSumAppend([subs[0]], subs[1..]);
      SingletonSums(subs[0]);
      TotalSumBoundsActiveSum(subs[1..]);
    }
  }

  /** The active sum passes a negative balance through unclamped, and counts a
      non-finite one as 0. */
  lemma ActiveSumExamples()
    ensures CalcActiveSum([Subscription(true, Finite(-5.0), Finite(1.0),
                                        SubscriptionPlan(Finite(10.0), "STANDARD"))]) == -5.0
    ensures CalcActiveSum([Subscription(true, NonFinite, Finite(1.0),
                                        SubscriptionPlan(Finite(10.0), "STANDARD"))]) == 0.0
    ensures CalcTotalSum([Subscription(true, Finite(-5.0), Finite(1.0),
                                       SubscriptionPlan(Finite(10.0), "STANDARD"))]) == 10.0
  {
    SingletonSums(Subscription(true, Finite(-5.0), Finite(1.0), SubscriptionPlan(Finite(10.0), "STANDARD")));
    SingletonSums(Subscription(true, NonFinite, Finite(1.0), SubscriptionPlan(Finite(10.0), "STANDARD")));
  }
}
