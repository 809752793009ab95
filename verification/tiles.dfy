/**
 Tiles in the 34-kind format, the groups of a hand division and the hand value
 returned by the value estimator. The helpers of the external mahjong library
 (`is_honor`, `simplify`, `is_pair`, `is_chi`) are stand-ins defined here.
 */
module Tiles {
  import opened Outcomes

  /** A tile kind: 0..26 are the three suits of nine ranks, 27..33 the honors. */
  type Tile = nat

  /** The first honor kind (the east wind). */
  const FirstHonor: Tile := 27

  /** Stand-in for `is_honor`. */
  predicate IsHonor(t: Tile) {
    t >= FirstHonor
  }

  /** Stand-in for `simplify`: the in-suit rank, 0 for a one up to 8 for a nine. */
  function Simplify(t: Tile): (rank: nat)
    ensures rank < 9
    ensures (t - rank) % 9 == 0
  {
    t % 9
  }

  /** One group of a hand division, as tile kinds. */
  type Group = seq<Tile>

  /** Stand-in for `is_pair`: two equal tiles. */
  predicate IsPair(g: Group) {
    |g| == 2 && g[0] == g[1]
  }

  /** Stand-in for `is_chi`: a run of three consecutive kinds. */
  predicate IsChi(g: Group) {
    |g| == 3 && g[1] == g[0] + 1 && g[2] == g[0] + 2
  }

  /** Number of pairs in a division. */
  function PairCount(division: seq<Group>): (n: nat)
    ensures n <= |division|
    ensures n == 0 <==> forall i :: 0 <= i < |division| ==> !IsPair(division[i])
  {
    if |division| == 0 then 0
    else (if IsPair(division[0]) then 1 else 0) + PairCount(division[1..])
  }

  /** Counting pairs is additive over concatenation: every group is counted once, and only if it is a pair. */
  lemma {:induction false} PairCountAppend(a: seq<Group>, b: seq<Group>)
    ensures PairCount(a + b) == PairCount(a) + PairCount(b)
  {
    if |a| == 0 {
      assert a + b == b;
    } else {
      assert (a + b)[1..] == a[1..] + b;
      PairCountAppend(a[1..], b);
    }
  }

  /** Adding one group to a division adds one to the pair count exactly when that group is a pair. */
  lemma PairCountSnoc(division: seq<Group>, g: Group)
    ensures PairCount(division + [g]) == PairCount(division) + (if IsPair(g) then 1 else 0)
  {
    PairCountAppend(division, [g]);
    assert [g][1..] == [];
  }

  /** The division has the seven-pairs (chiitoitsu) shape. */
  predicate IsChiitoitsu(division: seq<Group>) {
    PairCount(division) == 7
  }

  /**
   What the value estimator reports for one winning tile, riichi not declared:
   whether it failed, whether the hand has yaku, and its main cost if any.
   */
  datatype HandValue = HandValue(error: bool, yaku: bool, cost: Option<nat>)

  /** The hand has yaku and a cost (the test the one-sided evaluator makes). */
  predicate Priced(v: HandValue) {
    v.yaku && v.cost.Some?
  }

  /** An error-free estimate with yaku and a cost (a "wait with yaku" of the many-sided evaluator). */
  predicate Qualifies(v: HandValue) {
    !v.error && Priced(v)
  }

  /** An error-free estimate without a cost: subscripting its cost raises. */
  predicate Uncosted(v: HandValue) {
    !v.error && v.cost.None?
  }

  /** The estimate has a cost strictly below `limit`. */
  predicate CheaperThan(v: HandValue, limit: nat) {
    v.cost.Some? && v.cost.value < limit
  }
}
