/**
 The riichi decision taken before a discard. It gates on an empty wait and a
 defensive posture, dry-runs the discard, refuses a wait with no live tile,
 always declares an uncontested first discard, and otherwise hands over to the
 one-sided or the many-sided evaluator.
 */
module Riichi {
  import opened Outcomes
  import opened Tiles
  import opened DryRun
  import OneSided
  import ManySided

  /** Strength of a kabe found by the kabe detector. */
  datatype KabeKind = SoftKabe | StrongKabe

  /** One kabe: the kind it protects and its strength. */
  datatype Kabe = Kabe(tile: Tile, kind: KabeKind)

  /**
   What the collaborators answer about a snapshot: the live count of its
   waits, the estimate of each winning tile without riichi, the first division
   of the finished hand, our own suji traps, and the kabe of the finished hand.
   */
  datatype Oracle = Oracle(
    liveCount: nat,
    estimate: Tile -> HandValue,
    division: seq<Group>,
    sujiTiles: set<Tile>,
    kabe: seq<Kabe>)

  /** The loop over the kabe: is there a strong kabe on `w`? */
  function HaveKabe(kabe: seq<Kabe>, w: Tile): (r: bool)
    ensures r <==> exists i :: 0 <= i < |kabe| && kabe[i].tile == w && kabe[i].kind == StrongKabe
  {
    if |kabe| == 0 then false
    else
      var found := HaveKabe(kabe[..|kabe| - 1], w);
      var last := kabe[|kabe| - 1];
      if w == last.tile && last.kind == StrongKabe then true else found
  }

  /** What the one-sided evaluator reads about the snapshot's single wait. */
  function SingleWaitOf(snapshot: Player, o: Oracle): (x: OneSided.SingleWait)
    requires |snapshot.waiting| > 0
    ensures x.tile == snapshot.waiting[0]
    ensures x.value == o.estimate(snapshot.waiting[0])
    ensures x.haveSuji <==> snapshot.waiting[0] in o.sujiTiles
    ensures x.haveKabe <==> exists i :: 0 <= i < |o.kabe| && o.kabe[i].tile == snapshot.waiting[0] && o.kabe[i].kind == StrongKabe
    ensures x.live == o.liveCount && x.division == o.division
    ensures x.isDealer == snapshot.isDealer && x.roundStep == snapshot.roundStep
  {
    var w := snapshot.waiting[0];
    OneSided.SingleWait(
      tile := w,
      live := o.liveCount,
      value := o.estimate(w),
      division := o.division,
      isDealer := snapshot.isDealer,
      roundStep := snapshot.roundStep,
      haveSuji := w in o.sujiTiles,
      haveKabe := HaveKabe(o.kabe, w))
  }

  /** The gates that come before the dry run are passed. */
  predicate Eligible(p: Player) {
    |p.waiting| > 0 && !p.inDefence
  }

  /** The gates before the evaluators are passed: eligible, discard in hand, a live tile, and not an uncontested first discard. */
  predicate Dispatched(p: Player, discard: nat, observe: Player -> Oracle) {
    && Eligible(p)
    && discard in p.tiles
    && observe(Simulate(p, discard).value).liveCount > 0
    && !(p.roundStep == 1 && !p.meldWasCalled)
  }

  /**
   Should the player declare riichi with this discard? `observe` stands for
   the collaborators, which are consulted on the dry-run snapshot only.
   */
  function ShouldCallRiichi(p: Player, discard: nat, observe: Player -> Oracle): (r: Result<bool>)
    // an empty wait or a defensive posture refuses, whatever else holds
    ensures |p.waiting| == 0 ==> r == Ok(false)
    ensures p.inDefence ==> r == Ok(false)
    // past those gates, the dry run raises exactly when the hand lacks the discard
    ensures Eligible(p) ==> (r == Err(DiscardNotInHand) <==> discard !in p.tiles)
    // karaten refuses; otherwise an uncontested first discard declares
    ensures Eligible(p) && discard in p.tiles ==>
      var o := observe(Simulate(p, discard).value);
      && (o.liveCount == 0 ==> r == Ok(false))
      && (o.liveCount > 0 && p.roundStep == 1 && !p.meldWasCalled ==> r == Ok(true))
    // a declaration needs both gates, the discard in hand and a live tile
    ensures r == Ok(true) ==>
      Eligible(p) && discard in p.tiles && observe(Simulate(p, discard).value).liveCount > 0
    // only a many-sided wait can meet an estimate without a cost
    ensures r == Err(CostMissing) ==> |p.waiting| >= 2
    // past every gate, a single wait follows the one-sided table and a wider one the many-sided evaluator
    ensures Dispatched(p, discard, observe) && |p.waiting| == 1 ==>
      var snapshot := Simulate(p, discard).value;
      r == Ok(OneSided.OneSidedTable(SingleWaitOf(snapshot, observe(snapshot))))
    ensures Dispatched(p, discard, observe) && |p.waiting| >= 2 ==>
      var o := observe(Simulate(p, discard).value);
      r == ManySided.Evaluate(p.waiting, o.estimate, o.liveCount, p.isDealer)
  {
    if |p.waiting| == 0 then Ok(false)
    else if p.inDefence then Ok(false)
    else
      match Simulate(p, discard)
      case Err(f) => Err(f)
      case Ok(snapshot) =>
        var o := observe(snapshot);
        if o.liveCount == 0 then Ok(false)
        else if snapshot.roundStep == 1 && !snapshot.meldWasCalled then Ok(true)
        else if |snapshot.waiting| == 1 then Ok(OneSided.Evaluate(SingleWaitOf(snapshot, o)))
        else ManySided.Evaluate(snapshot.waiting, o.estimate, o.liveCount, snapshot.isDealer)
  }
}
