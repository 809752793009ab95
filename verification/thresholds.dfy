/**
 The point limits of the riichi policy. At or above a limit the hand is
 considered valuable enough to stay concealed (damaten) rather than declare.
 */
module Thresholds {

  /** Single honor wait with yaku. */
  const DealerHonorLimit: nat := 12000
  const NonDealerHonorLimit: nat := 8000

  /** Narrow waits: tanki, two-tile kanchan/penchan, and many-sided waits with 3-4 live tiles. */
  const DealerNarrowLimit: nat := 7700
  const NonDealerNarrowLimit: nat := 5200

  /** Many-sided waits with 5-6 live tiles. */
  const DealerMediumLimit: nat := 11600
  const NonDealerMediumLimit: nat := 7700

  /** Many-sided waits with 7 or more live tiles. */
  const DealerWideLimit: nat := 18000
  const NonDealerWideLimit: nat := 12000

  /** The live-tile brackets of a many-sided wait that has more than two live tiles. */
  datatype Bracket = Narrow | Medium | Wide

  /** The bracket of a live count above two. */
  function BracketOf(live: nat): (b: Bracket)
    requires live > 2
    ensures b == Narrow <==> live <= 4
    ensures b == Wide <==> live >= 7
  {
    if live <= 4 then Narrow
    else if live <= 6 then Medium
    else Wide
  }

  /** The damaten limit of a bracket. */
  function DamaLimit(b: Bracket, isDealer: bool): nat {
    match b
    case Narrow => if isDealer then DealerNarrowLimit else NonDealerNarrowLimit
    case Medium => if isDealer then DealerMediumLimit else NonDealerMediumLimit
    case Wide => if isDealer then DealerWideLimit else NonDealerWideLimit
  }

  /** The damaten limit of a single honor wait. */
  function HonorLimit(isDealer: bool): nat {
    if isDealer then DealerHonorLimit else NonDealerHonorLimit
  }

  /** Ordering of brackets by width. */
  function Width(b: Bracket): nat {
    match b
    case Narrow => 0
    case Medium => 1
    case Wide => 2
  }

  /** A dealer tolerates strictly more points before choosing damaten, and wider brackets tolerate more. */
  lemma LimitsOrdered(b: Bracket, b': Bracket, isDealer: bool)
    ensures DamaLimit(b, false) < DamaLimit(b, true)
    ensures HonorLimit(false) < HonorLimit(true)
    ensures Width(b) <= Width(b') ==> DamaLimit(b, isDealer) <= DamaLimit(b', isDealer)
  {
  }

  /** The bracket never narrows as the live count grows. */
  lemma BracketMonotone(live: nat, live': nat)
    requires 2 < live <= live'
    ensures Width(BracketOf(live)) <= Width(BracketOf(live'))
  {
  }
}
