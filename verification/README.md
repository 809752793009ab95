# Riichi decision policy

A Dafny model of the riichi decision of the first-version bot AI of
tenhou-python-bot (`project/game/ai/first_version/riichi.py`). Just before a
discard it answers one question: should the player declare riichi?

The decision has three stages:

- **Gatekeeping** (`Riichi.ShouldCallRiichi`). An empty wait or a defensive
  posture refuses. The discard is dry-run on a copy of the player. A wait with
  no live tile (karaten) refuses. An uncontested first discard (daburi)
  declares. Otherwise a single-kind wait goes to the one-sided evaluator and a
  wider wait goes to the many-sided evaluator.
- **One-sided evaluator** (`OneSided.Evaluate`). A decision table for a
  tanki, kanchan, penchan or single honor wait. It reads whether the wait has
  yaku without riichi and at what cost, the rank of the wait, the group of the
  first hand division that holds it, the seven-pairs shape, the live count, the
  round step, the dealer flag and the suji-trap and kabe signals.
- **Many-sided evaluator** (`ManySided.Evaluate`). When every wait has yaku,
  the hand stays concealed unless more than two tiles are live and the cheapest
  wait is below the limit of its live-count bracket. When some wait lacks yaku,
  riichi is declared.

Modules, one per file:

- `Outcomes` (outcomes.dfy): `Option`, `Result`, and the two exceptions of
  the decision this model represents (`Fault`).
- `Tiles` (tiles.dfy): 34-format tile kinds, division groups, hand values.
  It also holds stand-ins for the mahjong library helpers. These are
  assumptions, because the library is not part of this model:
  - `IsHonor(t)` is `t >= 27`;
  - `Simplify(t)` is `t % 9`;
  - `IsPair` means two equal tiles;
  - `IsChi` means a run of three consecutive kinds.
- `Thresholds` (thresholds.dfy): the point limits as named constants, the
  live-count brackets and their limit table.
- `DryRun` (dry_run.dfy): the snapshot built from the player and the discard.
- `OneSided` (one_sided.dfy): the evaluator in the branch order of
  `Riichi._should_call_riichi_one_sided`, and beside it a group-by-group
  decision table (`OneSidedTable`). The evaluator is proved equal to the
  table.
- `ManySided` (many_sided.dfy): the evaluator in the branch order of
  `Riichi._should_call_riichi_many_sided`. Its contract restates the policy
  without `min`: riichi exactly when some wait is cheaper than the bracket
  limit.
- `Riichi` (riichi.dfy): the collaborator answers (`Oracle`) and the top-level
  decision.

The collaborators are the tile counter, the value estimator, the hand
divider, the suji detector and the kabe detector. They are a parameter
`observe: Player -> Oracle`. The decision applies it to the dry-run snapshot
only, never to the real player.

Notes on the code's behaviour, all in
`project/game/ai/first_version/riichi.py`:

- The with-yaku loop (lines 92-156) skips a group that holds the wait but is
  neither a pair nor a chi (a triplet, say), and keeps scanning later groups.
  The table therefore speaks of the first *pair or chi* that holds the wait.
- The daburi rule (lines 36-38) is reached only after the empty-wait and
  defence gates (lines 13-17), the dry run (lines 21-25) and the karaten gate
  (lines 28-33).
- The one-sided evaluator's yaku test (line 76) reads only the yaku and the
  cost of the estimate, never its error field.
- The many-sided loop (lines 202-203) subscripts the cost of every error-free
  estimate, which raises when that cost is `None`. The model returns
  `Err(CostMissing)` there.
- The no-yaku kanchan rule (line 187) uses ranks 4..6 (the tiles 5-7). The
  with-yaku rules (lines 99 and 135) use ranks 3..5 (the tiles 4-6). Both are
  modelled as written.

## Model

| member | source | states |
|---|---|---|
| `DryRun.RemoveFirst` | project/game/ai/first_version/riichi.py:25 | `list.remove` fails exactly when the tile is absent; otherwise the result is the list with the tile's first occurrence cut out and everything else kept in order |
| `DryRun.RemoveFirstMultiset` | project/game/ai/first_version/riichi.py:25 | removing a held tile takes exactly one copy of it out of the hand's multiset and shortens the hand by one |
| `DryRun.Simulate` | project/game/ai/first_version/riichi.py:21-25 | the snapshot fails with `DiscardNotInHand` exactly when the hand lacks the discard; otherwise its hand is the original minus one copy of the discard, its pile gains the discard flagged tsumogiri iff it equals the last draw, and every other field is the original's |
| `Thresholds.BracketOf` | project/game/ai/first_version/riichi.py:212-242 | a live count above two is in the narrow bracket iff it is at most 4 and in the wide bracket iff it is at least 7 |
| `Thresholds.LimitsOrdered` | project/game/ai/first_version/riichi.py:80-242 | every dealer limit is strictly above the non-dealer limit of the same bracket (also for honor waits), and a wider bracket never has a lower limit |
| `Thresholds.BracketMonotone` | project/game/ai/first_version/riichi.py:212-226 | a larger live count never falls in a narrower bracket |
| `Tiles.PairCount` | project/game/ai/first_version/riichi.py:89 | the number of pair groups in a division is at most its length, and zero exactly when no group is a pair |
| `Tiles.PairCountAppend` | project/game/ai/first_version/riichi.py:89 | the pair count of two divisions joined is the sum of their pair counts |
| `Tiles.PairCountSnoc` | project/game/ai/first_version/riichi.py:89 | adding one group adds one to the pair count exactly when that group is a pair, so the seven-pairs test counts every pair group once |
| `OneSided.YakuGroupStep` | project/game/ai/first_version/riichi.py:96-156 | with yaku, a group holding the wait gives a verdict exactly when it is a pair or a chi, and that verdict is the table's verdict for a seven-pairs tanki, another tanki, or a kanchan/penchan |
| `OneSided.FindHolder` | project/game/ai/first_version/riichi.py:92-94 | the search returns the first group from `k` on that holds the wait and is a pair or chi, or the division's length when there is none |
| `OneSided.YakuScan` | project/game/ai/first_version/riichi.py:92-156 | the with-yaku loop falls through exactly when no pair or chi holds the wait; otherwise its verdict is the table's verdict for the first pair or chi holding the wait |
| `OneSided.PlainGroupStep` | project/game/ai/first_version/riichi.py:169-188 | without yaku, a group holding the wait stops the loop exactly when it is a vetoed pair or a chi on ranks 4..6; a pair stops with false, a chi with "four live tiles or round step at least 6" |
| `OneSided.FindStopper` | project/game/ai/first_version/riichi.py:165-167 | the search returns the first group from `k` on that stops the no-yaku loop (a vetoed pair or a chi on ranks 4..6 holding the wait), or the division's length when there is none |
| `OneSided.PlainScan` | project/game/ai/first_version/riichi.py:165-188 | the no-yaku loop finishes exactly when no group stops it; otherwise its verdict is that of the first stopping group |
| `OneSided.WithoutYaku` | project/game/ai/first_version/riichi.py:158-190 | the no-yaku section equals its table: honors declare, otherwise the first stopping group (if any) must be a chi whose rule holds |
| `OneSided.Evaluate` | project/game/ai/first_version/riichi.py:46-190 | the one-sided evaluator equals the decision table `OneSidedTable` (honor limit; verdict of the first pair or chi holding the wait; fall-through to the no-yaku table) |
| `OneSided.HonorWithYaku` | project/game/ai/first_version/riichi.py:80-87 | a single honor wait with yaku declares iff the cost is below 12000 for a dealer and below 8000 otherwise |
| `OneSided.YakuGroupRules` | project/game/ai/first_version/riichi.py:92-156 | with yaku and a pair or chi holding the wait: a declaration needs a suji trap or kabe; one live tile refuses; ranks 3..5 refuse a chi or non-seven-pairs tanki; cost at least 7700 (dealer) or 5200 refuses a tanki off ranks 0 and 8 and a chi on exactly two live tiles |
| `OneSided.YakuFallThrough` | project/game/ai/first_version/riichi.py:92-190 | with yaku, a non-honor wait that no pair or chi holds falls through to the no-yaku section and declares |
| `OneSided.WithoutYakuRules` | project/game/ai/first_version/riichi.py:160-190 | without yaku: honors declare; a first holding pair refuses without suji or kabe, or before round step 6 on one live tile or ranks 3..5; a first holding chi on ranks 4..6 declares iff four tiles are live or the round step is at least 6; when no group stops the loop it declares |
| `OneSided.DealerDominates` | project/game/ai/first_version/riichi.py:76-190 | for the same hand, a non-dealer declaration is also a dealer declaration |
| `OneSided.CheaperDeclares` | project/game/ai/first_version/riichi.py:76-156 | with yaku, lowering the cost never turns a declaration into damaten |
| `ManySided.TallyWaits` | project/game/ai/first_version/riichi.py:198-205 | the loop raises exactly when some error-free estimate lacks a cost; otherwise its yaku count equals the number of waits iff every wait is error-free with yaku and cost, and then the collected costs are the waits' costs in order |
| `ManySided.MinCost` | project/game/ai/first_version/riichi.py:209 | `min` returns an element of the list that is at most every element |
| `ManySided.CheapestDecides` | project/game/ai/first_version/riichi.py:209-242 | with every wait priced, the cheapest cost is below a limit iff some wait's cost is |
| `ManySided.Evaluate` | project/game/ai/first_version/riichi.py:193-245 | raises exactly when an error-free estimate lacks a cost; declares when some wait lacks yaku; when all have yaku, declares iff more than two tiles are live and some wait is below the limit of the live count's bracket |
| `ManySided.Brackets` | project/game/ai/first_version/riichi.py:207-242 | with every wait priced: two or fewer live tiles refuse; otherwise declares iff some wait is below 7700/11600/18000 (dealer) or 5200/7700/12000 (non-dealer) for 3-4, 5-6 and 7+ live tiles |
| `ManySided.MoreLiveDeclares` | project/game/ai/first_version/riichi.py:211-242 | for fixed waits, estimates and dealer flag, raising the live count never turns a declaration into damaten |
| `ManySided.DealerDominates` | project/game/ai/first_version/riichi.py:216-242 | for the same waits, a non-dealer declaration is also a dealer declaration |
| `ManySided.CheaperDeclares` | project/game/ai/first_version/riichi.py:198-242 | lowering the waits' costs, with errors, yaku and cost presence unchanged, never turns a declaration into damaten |
| `Riichi.HaveKabe` | project/game/ai/first_version/riichi.py:69-73 | the kabe loop reports true iff some kabe on the waiting kind is strong |
| `Riichi.SingleWaitOf` | project/game/ai/first_version/riichi.py:47-73 | the one-sided view reads the snapshot's first wait, that wait's estimate, the snapshot's live count, the first division, the snapshot's dealer flag and round step, suji membership of the wait, and whether a strong kabe protects it |
| `Riichi.ShouldCallRiichi` | project/game/ai/first_version/riichi.py:11-43 | an empty wait or defence refuses whatever else holds; past them the dry run raises iff the discard is not in hand; karaten refuses; an uncontested first discard with live tiles declares; any declaration implies both gates, the discard in hand and a live tile; a missing cost can only come from a many-sided wait; past every gate a single wait follows the one-sided table and a wider wait the many-sided evaluator |

## Left out

- The collaborators are inputs, answered by `observe` on the snapshot. They
  are `hand_builder.count_tiles`, `estimate_hand_value`,
  `hand_divider.divide_hand`, `defence.suji.find_suji_against_self` and
  `defence.kabe.find_all_kabe`. Their source is not part of this model.
- The live count is a single value. Each evaluator calls the same counter
  again on the same snapshot, so it sees the same number.
- The 34-array conversions are library plumbing and are left out. This
  covers `TilesConverter.to_34_array`, the `waiting * 4` tile and the
  closed-meld tiles added to the finished hand (lines 54-59). They only feed
  the collaborators.
- The division is the divider's first result, taken as given. An empty
  divider result (an `IndexError` at `results[0]`) is not modelled. Other
  divisions are never tried, as in the code.
- `copy.deepcopy` is value semantics here: the snapshot is a new value.
- Of `table.add_discarded_tile`, only the appended discard is modelled.
  Revealed-tile bookkeeping and any other effect it may have are not part of
  this model. That includes any change to the round step, whose code is not
  part of this model. The snapshot keeps all other fields.
- The mahjong library helpers `is_honor`, `simplify`, `is_pair` and `is_chi`
  are the stand-ins listed above, not the library's code.
- Calling the decision twice on the same inputs gives the same result. This
  holds by construction, since every member is a pure function, so no lemma
  states it.
