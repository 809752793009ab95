/**
 The evaluator for a wait on two or more tile kinds. When every wait has yaku
 without riichi, the hand stays concealed unless enough tiles are live and the
 cheapest wait is below the limit of its live-count bracket; when some wait
 lacks yaku, riichi is declared.
 */
module ManySided {
  import opened Outcomes
  import opened Tiles
  import opened Thresholds

  /** The accumulators of the loop over the waits: the costs collected and the number of waits with yaku. */
  datatype Tally = Tally(costs: seq<nat>, withYaku: nat)

  /**
   The loop over the waits, in order: every error-free estimate contributes its
   cost, and counts as a wait with yaku when it has yaku. An error-free
   estimate without a cost raises.
   */
  function TallyWaits(waiting: seq<Tile>, estimate: Tile -> HandValue): (r: Result<Tally>)
    decreases |waiting|
    ensures r.Err? <==> exists i :: 0 <= i < |waiting| && Uncosted(estimate(waiting[i]))
    ensures r.Err? ==> r.fault == CostMissing
    ensures r.Ok? ==> r.value.withYaku <= |waiting|
    ensures r.Ok? ==>
      (r.value.withYaku == |waiting| <==> forall i :: 0 <= i < |waiting| ==> Qualifies(estimate(waiting[i])))
    ensures r.Ok? && r.value.withYaku == |waiting| ==>
      |r.value.costs| == |waiting|
      && forall i :: 0 <= i < |waiting| ==> estimate(waiting[i]).cost == Some(r.value.costs[i])
  {
    if |waiting| == 0 then Ok(Tally([], 0))
    else
      var last := |waiting| - 1;
      match TallyWaits(waiting[..last], estimate)
      case Err(f) => Err(f)
      case Ok(t) =>
        var v := estimate(waiting[last]);
        if v.error then Ok(t)
        else if v.cost.None? then Err(CostMissing)
        else Ok(Tally(t.costs + [v.cost.value], if v.yaku then t.withYaku + 1 else t.withYaku))
  }

  /** Python's `min` over a non-empty list. */
  function MinCost(costs: seq<nat>): (m: nat)
    requires |costs| > 0
    ensures m in costs
    ensures forall i :: 0 <= i < |costs| ==> m <= costs[i]
  {
    if |costs| == 1 then costs[0]
    else
      var rest := MinCost(costs[1..]);
      if costs[0] <= rest then costs[0] else rest
  }

  /** Some wait's estimate has no yaku (or failed or has no cost). */
  predicate SomeWaitWithoutYaku(waiting: seq<Tile>, estimate: Tile -> HandValue) {
    exists i :: 0 <= i < |waiting| && !Qualifies(estimate(waiting[i]))
  }

  /** Some wait is cheaper than `limit`. */
  predicate SomeWaitCheaperThan(waiting: seq<Tile>, estimate: Tile -> HandValue, limit: nat) {
    exists i :: 0 <= i < |waiting| && CheaperThan(estimate(waiting[i]), limit)
  }

  /** The many-sided evaluator, in the branch order of `Riichi._should_call_riichi_many_sided`. */
  function Evaluate(waiting: seq<Tile>, estimate: Tile -> HandValue, live: nat, isDealer: bool): (r: Result<bool>)
    requires |waiting| > 0
    ensures r.Err? <==> exists i :: 0 <= i < |waiting| && Uncosted(estimate(waiting[i]))
    ensures r.Err? ==> r.fault == CostMissing
    ensures r.Ok? && SomeWaitWithoutYaku(waiting, estimate) ==> r.value
    ensures r.Ok? && !SomeWaitWithoutYaku(waiting, estimate) ==>
      (r.value <==> live > 2 && SomeWaitCheaperThan(waiting, estimate, DamaLimit(BracketOf(live), isDealer)))
  {
    match TallyWaits(waiting, estimate)
    case Err(f) => Err(f)
    case Ok(t) =>
      if t.withYaku == |waiting| then
        var minCost := MinCost(t.costs);
        if live <= 2 then Ok(false)
        else
          CheapestDecides(waiting, estimate, t.costs, minCost, live, isDealer);
          if live <= 4 then
            if isDealer && minCost >= DealerNarrowLimit then Ok(false)
            else if !isDealer && minCost >= NonDealerNarrowLimit then Ok(false)
            else Ok(true)
          else if live <= 6 then
            if isDealer && minCost >= DealerMediumLimit then Ok(false)
            else if !isDealer && minCost >= NonDealerMediumLimit then Ok(false)
            else Ok(true)
          else
            if isDealer && minCost >= DealerWideLimit then Ok(false)
            else if !isDealer && minCost >= NonDealerWideLimit then Ok(false)
            else Ok(true)
      else Ok(true)
  }

  /** When all waits have yaku, the cheapest cost is below a limit exactly when some wait's is. */
  lemma CheapestDecides(waiting: seq<Tile>, estimate: Tile -> HandValue, costs: seq<nat>, minCost: nat, live: nat, isDealer: bool)
    requires |costs| == |waiting| > 0
    requires forall i :: 0 <= i < |waiting| ==> estimate(waiting[i]).cost == Some(costs[i])
    requires minCost in costs && forall i :: 0 <= i < |costs| ==> minCost <= costs[i]
    requires live > 2
    ensures minCost < DamaLimit(BracketOf(live), isDealer)
            <==> SomeWaitCheaperThan(waiting, estimate, DamaLimit(BracketOf(live), isDealer))
  {
    var limit := DamaLimit(BracketOf(live), isDealer);
    var k :| 0 <= k < |costs| && costs[k] == minCost;
    if minCost < limit {
      assert CheaperThan(estimate(waiting[k]), limit);
    }
  }

  /**
   When every wait has yaku: damaten on two or fewer live tiles; otherwise
   riichi exactly when some wait is below 7700/11600/18000 points for a dealer,
   5200/7700/12000 for a non-dealer, for 3-4, 5-6 and 7 or more live tiles.
   */
  lemma Brackets(waiting: seq<Tile>, estimate: Tile -> HandValue, live: nat, isDealer: bool)
    requires |waiting| > 0
    requires forall i :: 0 <= i < |waiting| ==> Qualifies(estimate(waiting[i]))
    ensures Evaluate(waiting, estimate, live, isDealer).Ok?
    ensures live <= 2 ==> Evaluate(waiting, estimate, live, isDealer) == Ok(false)
    ensures 3 <= live <= 4 ==> (Evaluate(waiting, estimate, live, isDealer).value
              <==> SomeWaitCheaperThan(waiting, estimate, if isDealer then 7700 else 5200))
    ensures 5 <= live <= 6 ==> (Evaluate(waiting, estimate, live, isDealer).value
              <==> SomeWaitCheaperThan(waiting, estimate, if isDealer then 11600 else 7700))
    ensures live >= 7 ==> (Evaluate(waiting, estimate, live, isDealer).value
              <==> SomeWaitCheaperThan(waiting, estimate, if isDealer then 18000 else 12000))
  {
    assert !SomeWaitWithoutYaku(waiting, estimate);
  }

  /** Raising the live count never turns a declaration into damaten. */
  lemma MoreLiveDeclares(waiting: seq<Tile>, estimate: Tile -> HandValue, live: nat, live': nat, isDealer: bool)
    requires |waiting| > 0 && live <= live'
    ensures Evaluate(waiting, estimate, live, isDealer) == Ok(true)
            ==> Evaluate(waiting, estimate, live', isDealer) == Ok(true)
  {
    if Evaluate(waiting, estimate, live, isDealer) == Ok(true) && !SomeWaitWithoutYaku(waiting, estimate) {
      BracketMonotone(live, live');
      LimitsOrdered(BracketOf(live), BracketOf(live'), isDealer);
      var i :| 0 <= i < |waiting| && CheaperThan(estimate(waiting[i]), DamaLimit(BracketOf(live), isDealer));
      assert CheaperThan(estimate(waiting[i]), DamaLimit(BracketOf(live'), isDealer));
    }
  }

  /** For the same waits, a declaration as non-dealer is also one as dealer. */
  lemma DealerDominates(waiting: seq<Tile>, estimate: Tile -> HandValue, live: nat)
    requires |waiting| > 0
    ensures Evaluate(waiting, estimate, live, false) == Ok(true)
            ==> Evaluate(waiting, estimate, live, true) == Ok(true)
  {
    if Evaluate(waiting, estimate, live, false) == Ok(true) && !SomeWaitWithoutYaku(waiting, estimate) {
      LimitsOrdered(BracketOf(live), BracketOf(live), false);
      var i :| 0 <= i < |waiting| && CheaperThan(estimate(waiting[i]), DamaLimit(BracketOf(live), false));
      assert CheaperThan(estimate(waiting[i]), DamaLimit(BracketOf(live), true));
    }
  }

  /** `a` is the estimate `b` with its cost, if any, lowered. */
  predicate NoDearer(a: HandValue, b: HandValue) {
    && a.error == b.error
    && a.yaku == b.yaku
    && a.cost.Some? == b.cost.Some?
    && (a.cost.Some? ==> a.cost.value <= b.cost.value)
  }

  /** Lowering the costs of the waits never turns a declaration into damaten. */
  lemma CheaperDeclares(waiting: seq<Tile>, estimate: Tile -> HandValue, cheaper: Tile -> HandValue, live: nat, isDealer: bool)
    requires |waiting| > 0
    requires forall i :: 0 <= i < |waiting| ==> NoDearer(cheaper(waiting[i]), estimate(waiting[i]))
    ensures Evaluate(waiting, estimate, live, isDealer) == Ok(true)
            ==> Evaluate(waiting, cheaper, live, isDealer) == Ok(true)
  {
    if Evaluate(waiting, estimate, live, isDealer) == Ok(true) {
      assert forall i :: 0 <= i < |waiting| ==> Qualifies(cheaper(waiting[i])) == Qualifies(estimate(waiting[i]));
      assert forall i :: 0 <= i < |waiting| ==> Uncosted(cheaper(waiting[i])) == Uncosted(estimate(waiting[i]));
      if !SomeWaitWithoutYaku(waiting, estimate) {
        var limit := DamaLimit(BracketOf(live), isDealer);
        var i :| 0 <= i < |waiting| && CheaperThan(estimate(waiting[i]), limit);
        assert CheaperThan(cheaper(waiting[i]), limit);
      }
    }
  }
}
