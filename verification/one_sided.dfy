/**
 The evaluator for a wait on a single tile kind (tanki, kanchan, penchan or a
 single honor). `Evaluate` follows the branch order of
 `Riichi._should_call_riichi_one_sided`; the decision table beside it states
 the same policy group by group, and `Evaluate` is proved equal to it.
 */
module OneSided {
  import opened Outcomes
  import opened Tiles
  import opened Thresholds

  /** The round step from which a bad wait is no longer "early". */
  const LateStep: nat := 6

  /** Everything the evaluator reads about its one wait. */
  datatype SingleWait = SingleWait(
    tile: Tile,              // the waiting kind
    live: nat,               // live copies of it left
    value: HandValue,        // its estimate without riichi
    division: seq<Group>,    // the first division of the finished hand
    isDealer: bool,
    roundStep: nat,
    haveSuji: bool,          // the wait is one of our own suji traps
    haveKabe: bool)          // the wait has a strong kabe

  function Rank(x: SingleWait): nat {
    Simplify(x.tile)
  }

  /** The wait is disguised by a suji trap or a strong kabe. */
  predicate Disguised(x: SingleWait) {
    x.haveSuji || x.haveKabe
  }

  /** Ranks 3..5 (the tiles 4, 5, 6): the worst single waits. */
  predicate MiddleRank(x: SingleWait) {
    3 <= Rank(x) <= 5
  }

  /** Ranks 4..6 (the tiles 5, 6, 7): where a kanchan without yaku waits for a full wall or a late turn. */
  predicate ChiRuleRank(x: SingleWait) {
    4 <= Rank(x) <= 6
  }

  // ---------------------------------------------------------------------------
  // Decision table

  /** Group `i` of the division holds the wait and is a pair or a chi. */
  predicate HoldsPairOrChi(x: SingleWait, i: int) {
    && 0 <= i < |x.division|
    && x.tile in x.division[i]
    && (IsPair(x.division[i]) || IsChi(x.division[i]))
  }

  /** Group `i` is the first pair or chi holding the wait. */
  predicate FirstHolder(x: SingleWait, i: int) {
    HoldsPairOrChi(x, i) && forall j :: 0 <= j < i ==> !HoldsPairOrChi(x, j)
  }

  /** Tanki outside seven pairs, with yaku: an edge-ish rank, two or more live tiles, a modest cost on 2378, and a disguise. */
  predicate TankiOk(x: SingleWait, cost: nat) {
    && !MiddleRank(x)
    && x.live != 1
    && (Rank(x) == 0 || Rank(x) == 8 || cost < DamaLimit(Narrow, x.isDealer))
    && Disguised(x)
  }

  /** Seven-pairs tanki with yaku: two or more live tiles and a disguise. */
  predicate ChiitoitsuTankiOk(x: SingleWait) {
    x.live != 1 && Disguised(x)
  }

  /** Kanchan or penchan with yaku: not a middle rank, two or more live tiles, a modest cost when exactly two, and a disguise. */
  predicate KanchanOk(x: SingleWait, cost: nat) {
    && !MiddleRank(x)
    && x.live != 1
    && (x.live != 2 || cost < DamaLimit(Narrow, x.isDealer))
    && Disguised(x)
  }

  /** The verdict with yaku once the group holding the wait is known. */
  predicate GroupVerdict(x: SingleWait, cost: nat, g: Group) {
    if IsPair(g) then
      if IsChiitoitsu(x.division) then ChiitoitsuTankiOk(x) else TankiOk(x, cost)
    else KanchanOk(x, cost)
  }

  /** Without yaku, a tanki is vetoed unless disguised, and early unless on more than one live tile and off the middle ranks. */
  predicate PairVeto(x: SingleWait) {
    || !Disguised(x)
    || (x.live == 1 && x.roundStep < LateStep)
    || (MiddleRank(x) && x.roundStep < LateStep)
  }

  /** Without yaku, a kanchan on ranks 4..6 is declared only on a full wall or late. */
  predicate ChiRule(x: SingleWait) {
    x.live == 4 || x.roundStep >= LateStep
  }

  /** Group `i` holds the wait and ends the no-yaku scan: a vetoed pair or a chi on ranks 4..6. */
  predicate Stopper(x: SingleWait, i: int) {
    && 0 <= i < |x.division|
    && x.tile in x.division[i]
    && ((IsPair(x.division[i]) && PairVeto(x)) || (IsChi(x.division[i]) && ChiRuleRank(x)))
  }

  predicate FirstStopper(x: SingleWait, i: int) {
    Stopper(x, i) && forall j :: 0 <= j < i ==> !Stopper(x, j)
  }

  /** The verdict of a group that stops the no-yaku scan. */
  predicate StopVerdict(x: SingleWait, g: Group) {
    if IsPair(g) then false else ChiRule(x)
  }

  /** Without yaku: honors always; otherwise the first stopping group, if any, must be a chi whose rule holds. */
  ghost predicate PlainTable(x: SingleWait) {
    || IsHonor(x.tile)
    || forall i :: FirstStopper(x, i) ==> StopVerdict(x, x.division[i])
  }

  /** The whole one-sided policy as a table. */
  ghost predicate OneSidedTable(x: SingleWait) {
    if Priced(x.value) then
      var cost := x.value.cost.value;
      if IsHonor(x.tile) then cost < HonorLimit(x.isDealer)
      else if exists i :: FirstHolder(x, i) then
        forall i :: FirstHolder(x, i) ==> GroupVerdict(x, cost, x.division[i])
      else PlainTable(x)
    else PlainTable(x)
  }

  /** The first pair or chi holding the wait from group `k` on, or `|division|` when there is none. */
  function FindHolder(x: SingleWait, k: nat): (i: nat)
    requires k <= |x.division|
    decreases |x.division| - k
    ensures k <= i <= |x.division|
    ensures i < |x.division| ==> HoldsPairOrChi(x, i)
    ensures forall j :: k <= j < i ==> !HoldsPairOrChi(x, j)
  {
    if k == |x.division| || HoldsPairOrChi(x, k) then k else FindHolder(x, k + 1)
  }

  /** The first group stopping the no-yaku scan from group `k` on, or `|division|` when there is none. */
  function FindStopper(x: SingleWait, k: nat): (i: nat)
    requires k <= |x.division|
    decreases |x.division| - k
    ensures k <= i <= |x.division|
    ensures i < |x.division| ==> Stopper(x, i)
    ensures forall j :: k <= j < i ==> !Stopper(x, j)
  {
    if k == |x.division| || Stopper(x, k) then k else FindStopper(x, k + 1)
  }

  /** The search finds the first holder, and finds none exactly when no group holds the wait. */
  lemma FindHolderIsFirst(x: SingleWait)
    ensures FindHolder(x, 0) < |x.division| ==> FirstHolder(x, FindHolder(x, 0))
    ensures forall i :: FirstHolder(x, i) ==> i == FindHolder(x, 0)
  {
  }

  /** The search finds the first stopper, and finds none exactly when no group stops the scan. */
  lemma FindStopperIsFirst(x: SingleWait)
    ensures FindStopper(x, 0) < |x.division| ==> FirstStopper(x, FindStopper(x, 0))
    ensures forall i :: FirstStopper(x, i) ==> i == FindStopper(x, 0)
  {
  }

  // ---------------------------------------------------------------------------
  // Implementation, in the branch order of `Riichi._should_call_riichi_one_sided`

  /**
   The body of the with-yaku loop for one group that holds the wait: a verdict
   for a non-seven-pairs tanki, a seven-pairs tanki or a kanchan/penchan, and
   `None` (go on to the next group) for any other group.
   */
  function YakuGroupStep(x: SingleWait, cost: nat, g: Group): (r: Option<bool>)
    ensures r.Some? <==> IsPair(g) || IsChi(g)
    ensures r.Some? ==> r.value == GroupVerdict(x, cost, g)
  {
    var rank := Simplify(x.tile);
    var chiitoitsu := IsChiitoitsu(x.division);
    if IsPair(g) && !chiitoitsu then
      Some(
        if 3 <= rank <= 5 then false
        else if x.live == 1 then false
        else if rank != 0 && rank != 8 && x.isDealer && cost >= DealerNarrowLimit then false
        else if rank != 0 && rank != 8 && !x.isDealer && cost >= NonDealerNarrowLimit then false
        else if !x.haveSuji && !x.haveKabe then false
        else true)
    else if IsPair(g) && chiitoitsu then
      Some(
        if x.live == 1 then false
        else if !x.haveSuji && !x.haveKabe then false
        else true)
    else if IsChi(g) then
      Some(
        if 3 <= rank <= 5 then false
        else if x.live == 1 then false
        else if x.live == 2 && x.isDealer && cost >= DealerNarrowLimit then false
        else if x.live == 2 && !x.isDealer && cost >= NonDealerNarrowLimit then false
        else if !x.haveSuji && !x.haveKabe then false
        else true)
    else None
  }

  /**
   The loop over the division with yaku, from group `k` on: `None` when no
   group holding the wait is a pair or a chi, so that evaluation falls through
   to the no-yaku section; otherwise the verdict of the first such group.
   */
  function YakuScan(x: SingleWait, cost: nat, k: nat): (r: Option<bool>)
    requires k <= |x.division|
    decreases |x.division| - k
    ensures r.None? <==> FindHolder(x, k) == |x.division|
    ensures r.Some? ==> r.value == GroupVerdict(x, cost, x.division[FindHolder(x, k)])
  {
    if k == |x.division| then None
    else if x.tile !in x.division[k] then YakuScan(x, cost, k + 1)
    else
      match YakuGroupStep(x, cost, x.division[k])
      case Some(b) => Some(b)
      case None => YakuScan(x, cost, k + 1)
  }

  /**
   The body of the no-yaku loop for one group that holds the wait: `false` for
   a vetoed pair, the chi rule for a chi on ranks 4..6, `None` otherwise.
   */
  function PlainGroupStep(x: SingleWait, g: Group): (r: Option<bool>)
    ensures r.Some? <==> (IsPair(g) && PairVeto(x)) || (IsChi(g) && ChiRuleRank(x))
    ensures r.Some? ==> r.value == StopVerdict(x, g)
  {
    var rank := Simplify(x.tile);
    if IsPair(g) && !x.haveSuji && !x.haveKabe then Some(false)
    else if IsPair(g) && x.live == 1 && x.roundStep < LateStep then Some(false)
    else if IsPair(g) && 3 <= rank <= 5 && x.roundStep < LateStep then Some(false)
    else if IsChi(g) && 4 <= rank <= 6 then Some(x.live == 4 || x.roundStep >= LateStep)
    else None
  }

  /**
   The loop over the division without yaku, from group `k` on: `None` when no
   group stops it; otherwise the verdict of the first stopping group.
   */
  function PlainScan(x: SingleWait, k: nat): (r: Option<bool>)
    requires k <= |x.division|
    decreases |x.division| - k
    ensures r.None? <==> FindStopper(x, k) == |x.division|
    ensures r.Some? ==> r.value == StopVerdict(x, x.division[FindStopper(x, k)])
  {
    if k == |x.division| then None
    else if x.tile !in x.division[k] then PlainScan(x, k + 1)
    else
      match PlainGroupStep(x, x.division[k])
      case Some(b) => Some(b)
      case None => PlainScan(x, k + 1)
  }

  /** The no-yaku section: honors are declared; otherwise the scan decides, and a scan that finishes declares. */
  function WithoutYaku(x: SingleWait): (r: bool)
    ensures r == PlainTable(x)
  {
    FindStopperIsFirst(x);
    if IsHonor(x.tile) then true
    else PlainScan(x, 0).GetOr(true)
  }

  /** The one-sided evaluator. */
  function Evaluate(x: SingleWait): (r: bool)
    ensures r == OneSidedTable(x)
  {
    FindHolderIsFirst(x);
    if x.value.yaku && x.value.cost.Some? then
      var cost := x.value.cost.value;
      if IsHonor(x.tile) then
        if x.isDealer && cost < DealerHonorLimit then true
        else if !x.isDealer && cost < NonDealerHonorLimit then true
        else false
      else
        match YakuScan(x, cost, 0)
        case Some(b) => b
        case None => WithoutYaku(x)
    else WithoutYaku(x)
  }

  lemma FirstHolderUnique(x: SingleWait, i: int)
    requires FirstHolder(x, i)
    ensures forall i' :: FirstHolder(x, i') ==> i' == i
  {
  }

  lemma FirstStopperUnique(x: SingleWait, i: int)
    requires FirstStopper(x, i)
    ensures forall i' :: FirstStopper(x, i') ==> i' == i
  {
  }

  // ---------------------------------------------------------------------------
  // Properties

  /** Every group that stops the no-yaku scan is a pair or chi holding the wait. */
  lemma StoppersHold(x: SingleWait)
    ensures forall i :: Stopper(x, i) ==> HoldsPairOrChi(x, i)
  {
  }

  /** Two views of the same hand with the same wait agree on which groups hold the wait. */
  lemma SameHolders(x: SingleWait, y: SingleWait)
    requires x.tile == y.tile && x.division == y.division
    ensures forall i :: HoldsPairOrChi(x, i) == HoldsPairOrChi(y, i)
    ensures forall i :: FirstHolder(x, i) == FirstHolder(y, i)
  {
  }

  /** The no-yaku section reads neither the hand value nor the dealer flag. */
  lemma SamePlain(x: SingleWait, y: SingleWait)
    requires x.tile == y.tile && x.division == y.division && x.live == y.live
    requires x.roundStep == y.roundStep && x.haveSuji == y.haveSuji && x.haveKabe == y.haveKabe
    ensures PlainTable(x) == PlainTable(y)
  {
    assert forall i :: Stopper(x, i) == Stopper(y, i);
    assert forall i :: FirstStopper(x, i) == FirstStopper(y, i);
  }

  /** A single honor wait with yaku is declared exactly below 12000 points for a dealer and 8000 otherwise. */
  lemma HonorWithYaku(x: SingleWait)
    requires Priced(x.value) && IsHonor(x.tile)
    ensures x.isDealer ==> (Evaluate(x) <==> x.value.cost.value < 12000)
    ensures !x.isDealer ==> (Evaluate(x) <==> x.value.cost.value < 8000)
  {
  }

  /**
   With yaku, once a pair or chi holds the wait: riichi needs a suji trap or a
   kabe, is never declared on one live tile, never on ranks 3..5 unless the
   pair is part of seven pairs, and never on an expensive 2378 tanki or an
   expensive two-tile kanchan.
   */
  lemma YakuGroupRules(x: SingleWait, i: int)
    requires Priced(x.value) && !IsHonor(x.tile) && FirstHolder(x, i)
    ensures Evaluate(x) ==> x.haveSuji || x.haveKabe
    ensures x.live == 1 ==> !Evaluate(x)
    ensures ((IsChi(x.division[i]) || !IsChiitoitsu(x.division)) && 3 <= Simplify(x.tile) <= 5)
            ==> !Evaluate(x)
    ensures (&& IsPair(x.division[i]) && !IsChiitoitsu(x.division)
             && Simplify(x.tile) != 0 && Simplify(x.tile) != 8
             && x.value.cost.value >= (if x.isDealer then 7700 else 5200))
            ==> !Evaluate(x)
    ensures (IsChi(x.division[i]) && x.live == 2 && x.value.cost.value >= (if x.isDealer then 7700 else 5200))
            ==> !Evaluate(x)
  {
    FirstHolderUnique(x, i);
  }

  /** With yaku, when no pair or chi holds the wait the evaluation falls through to the no-yaku section, which declares. */
  lemma YakuFallThrough(x: SingleWait)
    requires Priced(x.value) && !IsHonor(x.tile)
    requires forall i :: 0 <= i < |x.division| ==> !HoldsPairOrChi(x, i)
    ensures Evaluate(x)
  {
    StoppersHold(x);
    assert forall i :: !FirstStopper(x, i);
  }

  /**
   Without yaku: an honor wait is declared; a pair that is the first group
   holding the wait vetoes riichi without a disguise, or early on one live tile
   or ranks 3..5; a chi on ranks 4..6 in that place decides exactly by a full
   wall or a late turn; and when no group stops the scan riichi is declared.
   */
  lemma WithoutYakuRules(x: SingleWait, i: int)
    requires !Priced(x.value)
    ensures IsHonor(x.tile) ==> Evaluate(x)
    ensures (&& !IsHonor(x.tile) && FirstHolder(x, i) && IsPair(x.division[i])
             && (!(x.haveSuji || x.haveKabe) || (x.roundStep < 6 && (x.live == 1 || 3 <= Simplify(x.tile) <= 5))))
            ==> !Evaluate(x)
    ensures (!IsHonor(x.tile) && FirstHolder(x, i) && IsChi(x.division[i]) && 4 <= Simplify(x.tile) <= 6)
            ==> (Evaluate(x) <==> x.live == 4 || x.roundStep >= 6)
    ensures (forall j :: 0 <= j < |x.division| ==> !Stopper(x, j)) ==> Evaluate(x)
  {
    if !IsHonor(x.tile) && FirstHolder(x, i) && Stopper(x, i) {
      StoppersHold(x);
      assert FirstStopper(x, i);
      FirstStopperUnique(x, i);
    }
  }

  /** For the same hand, a verdict to declare as non-dealer is also one as dealer. */
  lemma DealerDominates(x: SingleWait)
    requires !x.isDealer
    ensures Evaluate(x) ==> Evaluate(x.(isDealer := true))
  {
    var y := x.(isDealer := true);
    if Evaluate(x) {
      assert OneSidedTable(x);
      SameHolders(x, y);
      SamePlain(x, y);
      if Priced(x.value) && !IsHonor(x.tile) && exists i :: FirstHolder(x, i) {
        var i :| FirstHolder(x, i);
        FirstHolderUnique(x, i);
        assert GroupVerdict(y, x.value.cost.value, x.division[i]);
      }
      assert OneSidedTable(y);
    }
  }

  /** With yaku, lowering the cost never turns a declaration into damaten. */
  lemma CheaperDeclares(x: SingleWait, cost: nat)
    requires Priced(x.value) && cost <= x.value.cost.value
    ensures Evaluate(x) ==> Evaluate(x.(value := x.value.(cost := Some(cost))))
  {
    var y := x.(value := x.value.(cost := Some(cost)));
    if Evaluate(x) {
      assert OneSidedTable(x);
      SameHolders(x, y);
      SamePlain(x, y);
      if !IsHonor(x.tile) && exists i :: FirstHolder(x, i) {
        var i :| FirstHolder(x, i);
        FirstHolderUnique(x, i);
        assert GroupVerdict(y, cost, x.division[i]);
      }
      assert OneSidedTable(y);
    }
  }
}
