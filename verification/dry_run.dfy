/**
 The dry run the decision performs before evaluating a riichi: a copy of the
 player with the candidate discard recorded on the table and taken out of the
 hand. The copy is a new value; the real player is never touched.
 */
module DryRun {
  import opened Outcomes
  import opened Tiles

  /** One tile of a discard pile (136-format identity) and whether it was discarded straight after the draw. */
  datatype Discard = Discard(tile: nat, isTsumogiri: bool)

  /**
   The part of the player (and its table) the decision reads directly.
   `tiles` are 136-format identities; `waiting` holds 34-format kinds.
   */
  datatype Player = Player(
    tiles: seq<nat>,
    lastDraw: Option<nat>,
    discards: seq<Discard>,
    waiting: seq<Tile>,
    inDefence: bool,
    roundStep: nat,
    isDealer: bool,
    meldWasCalled: bool)

  /** Position of the first occurrence of `t` in `xs`. */
  function FirstIndex(xs: seq<nat>, t: nat): (i: nat)
    requires t in xs
    ensures i < |xs| && xs[i] == t
    ensures forall j :: 0 <= j < i ==> xs[j] != t
  {
    if xs[0] == t then 0 else 1 + FirstIndex(xs[1..], t)
  }

  /** Python's `list.remove`: drop the first occurrence of `t`, or fail when there is none. */
  function RemoveFirst(xs: seq<nat>, t: nat): (r: Option<seq<nat>>)
    ensures r.None? <==> t !in xs
    ensures r.Some? ==> r.value == xs[..FirstIndex(xs, t)] + xs[FirstIndex(xs, t) + 1..]
  {
    if |xs| == 0 then None
    else if xs[0] == t then Some(xs[1..])
    else
      match RemoveFirst(xs[1..], t)
      case None => None
      case Some(rest) =>
        var k := FirstIndex(xs[1..], t);
        assert xs[..k + 1] == [xs[0]] + xs[1..][..k];
        assert xs[k + 2..] == xs[1..][k + 1..];
        Some([xs[0]] + rest)
  }

  /** Removing one occurrence takes exactly that tile out of the hand's multiset. */
  lemma RemoveFirstMultiset(xs: seq<nat>, t: nat)
    requires t in xs
    ensures RemoveFirst(xs, t).Some?
    ensures multiset(RemoveFirst(xs, t).value) + multiset{t} == multiset(xs)
    ensures |RemoveFirst(xs, t).value| == |xs| - 1
  {
    var i := FirstIndex(xs, t);
    assert xs == xs[..i] + [t] + xs[i + 1..];
  }

  /**
   The snapshot: the discard is appended to the player's pile, flagged as
   tsumogiri exactly when it is the tile just drawn, and one copy of it leaves
   the hand. Fails when the hand does not hold the tile.
   */
  function Simulate(p: Player, discard: nat): (r: Result<Player>)
    ensures r.Err? <==> discard !in p.tiles
    ensures r.Err? ==> r.fault == DiscardNotInHand
    ensures r.Ok? ==> multiset(r.value.tiles) + multiset{discard} == multiset(p.tiles)
    ensures r.Ok? ==> |r.value.tiles| == |p.tiles| - 1
    ensures r.Ok? ==> r.value.discards == p.discards + [Discard(discard, p.lastDraw == Some(discard))]
    ensures r.Ok? ==> r.value.(tiles := p.tiles, discards := p.discards) == p
  {
    var isTsumogiri := p.lastDraw == Some(discard);
    var copy := p.(discards := p.discards + [Discard(discard, isTsumogiri)]);
    match RemoveFirst(copy.tiles, discard)
    case None => Err(DiscardNotInHand)
    case Some(rest) =>
      RemoveFirstMultiset(copy.tiles, discard);
      Ok(copy.(tiles := rest))
  }
}
