/** The three helper queries of the zerg bot `MyBot` (bot/main.py):
    `select_target`, `need_worker_mineral` and `should_expand`. Each reads the
    tick's snapshot and changes nothing; a random draw is an explicit index. */
module MyBotHelpers {
  import opened Sc2

  // ---------------------------------------------------------------------------
  // Helper queries
  // ---------------------------------------------------------------------------

  /** The points `select_target` may answer: the position of any known enemy
      structure, or the enemy start location when none is known. */
  ghost predicate IsTargetCandidate(s: Snapshot, p: Point) {
    if |s.knownEnemyStructures| > 0 then
      exists e :: e in s.knownEnemyStructures && e.pos == p
    else
      p == s.enemyStart
  }

  /** `pick` is a valid draw for `random.choice` over the known enemy structures. */
  predicate TargetPick(s: Snapshot, pick: nat) {
    pick < |s.knownEnemyStructures| || |s.knownEnemyStructures| == 0
  }

  /** `select_target`: `pick` is the index the random choice among known enemy
      structures draws. */
  function SelectTarget(s: Snapshot, pick: nat): Point
    requires TargetPick(s, pick)
  {
    if |s.knownEnemyStructures| > 0 then
      s.knownEnemyStructures[pick].pos
    else
      s.enemyStart
  }

  /** Every draw answers a candidate target. */
  lemma SelectTargetIsCandidate(s: Snapshot, pick: nat)
    requires TargetPick(s, pick)
    ensures IsTargetCandidate(s, SelectTarget(s, pick))
  {
    if |s.knownEnemyStructures| > 0 {
      assert s.knownEnemyStructures[pick] in s.knownEnemyStructures;
    }
  }

  /** Every candidate target is the answer for some draw: the random pick can
      land on any known enemy structure. */
  lemma SelectTargetReachesEveryCandidate(s: Snapshot, p: Point)
    requires IsTargetCandidate(s, p)
    ensures exists pick: nat :: TargetPick(s, pick) && SelectTarget(s, pick) == p
  {
    var known := s.knownEnemyStructures;
    if |known| > 0 {
      var e :| e in known && e.pos == p;
      var i :| 0 <= i < |known| && known[i] == e;
      assert SelectTarget(s, i) == p;
    } else {
      assert SelectTarget(s, 0) == p;
    }
  }

  function ReadyTownhalls(s: Snapshot): seq<Unit> {
    ReadyOnes(s.Townhalls())
  }

  /** The ready townhalls with fewer assigned harvesters than they can use. */
  function UndersaturatedTownhalls(s: Snapshot): seq<Unit> {
    Select(ReadyTownhalls(s), UndersaturatedSel)
  }

  /** The mineral fields `need_worker_mineral` may answer: the field nearest to
      some ready, undersaturated townhall. */
  ghost predicate IsSpareWorkerMineral(s: Snapshot, m: Unit) {
    |s.mineralFields| > 0 &&
    exists t :: t in UndersaturatedTownhalls(s) && m == ClosestTo(s.mineralFields, t.pos)
  }

  /** `pick` is a valid draw for `.random` over the undersaturated townhalls. */
  predicate MineralPick(s: Snapshot, pick: nat) {
    pick < |UndersaturatedTownhalls(s)| || |UndersaturatedTownhalls(s)| == 0
  }

  /** `need_worker_mineral`: `pick` is the index the random choice among the
      undersaturated townhalls draws. `Ok(None)` is the source's `None`; the
      error is the assertion `closest_to` raises when the map has no mineral field. */
  function NeedWorkerMineral(s: Snapshot, pick: nat): Result<Option<Unit>, Fault>
    requires MineralPick(s, pick)
  {
    var under := UndersaturatedTownhalls(s);
    if |under| > 0 then
      if |s.mineralFields| == 0 then Err(NoMineralField)
      else Ok(Some(ClosestTo(s.mineralFields, under[pick].pos)))
    else
      Ok(None)
  }

  /** What `need_worker_mineral` answers, whatever the draw. */
  lemma NeedWorkerMineralAnswers(s: Snapshot, pick: nat)
    requires MineralPick(s, pick)
    ensures NeedWorkerMineral(s, pick) == Ok(None) <==> |UndersaturatedTownhalls(s)| == 0
    ensures NeedWorkerMineral(s, pick) == Err(NoMineralField) <==>
      |UndersaturatedTownhalls(s)| > 0 && |s.mineralFields| == 0
    ensures NeedWorkerMineral(s, pick).Ok? && NeedWorkerMineral(s, pick).value.Some? ==>
      NeedWorkerMineral(s, pick).value.value in s.mineralFields &&
      IsSpareWorkerMineral(s, NeedWorkerMineral(s, pick).value.value)
  {
    var under := UndersaturatedTownhalls(s);
    if |under| > 0 && |s.mineralFields| > 0 {
      assert under[pick] in under;
    }
  }

  lemma SpareMineral(s: Snapshot, u: Unit)
    requires u in UndersaturatedTownhalls(s) && |s.mineralFields| > 0
    ensures IsSpareWorkerMineral(s, ClosestTo(s.mineralFields, u.pos))
  {
  }

  /** Every possible answer is the answer for some draw. */
  lemma NeedWorkerMineralReachesEveryCandidate(s: Snapshot, m: Unit)
    requires IsSpareWorkerMineral(s, m)
    ensures exists pick: nat :: pick < |UndersaturatedTownhalls(s)| && NeedWorkerMineral(s, pick) == Ok(Some(m))
  {
    var under := UndersaturatedTownhalls(s);
    var t :| t in under && m == ClosestTo(s.mineralFields, t.pos);
    var i :| 0 <= i < |under| && under[i] == t;
    assert NeedWorkerMineral(s, i) == Ok(Some(m));
  }

  function CollectingDrones(s: Snapshot): seq<Unit> {
    CollectingOnes(s.Workers())
  }

  /** `should_expand`, written in the source's order of early returns. */
  function ShouldExpand(s: Snapshot): bool {
    if s.minerals < 300 || s.Pending(Hatchery) > 0 then false
    else if |s.UnitsOf(SpawningPool)| > 0 && |s.Townhalls()| < 2 then true
    else if |s.UnitsOf(HydraliskDen)| > 0 && |s.Townhalls()| < 3 then true
    else |CollectingDrones(s)| < 66
  }

  /** The early returns of `should_expand` taken together: never below 300
      minerals or with a hatchery pending; past that, a pool with one townhall,
      a den with at most two, or fewer than 66 collecting drones. */
  lemma ShouldExpandExactly(s: Snapshot)
    ensures ShouldExpand(s) <==>
      s.minerals >= 300 && s.Pending(Hatchery) == 0 &&
      ((|s.UnitsOf(SpawningPool)| > 0 && |s.Townhalls()| < 2) ||
       (|s.UnitsOf(HydraliskDen)| > 0 && |s.Townhalls()| < 3) ||
       |CollectingDrones(s)| < 66)
  {
  }

  /** From three townhalls on, only the drone count decides: the bot expands
      exactly while fewer than 66 drones are collecting. */
  lemma ShouldExpandFromThreeBases(s: Snapshot)
    requires |s.Townhalls()| >= 3
    ensures ShouldExpand(s) <==>
      s.minerals >= 300 && s.Pending(Hatchery) == 0 && |CollectingDrones(s)| < 66
  {
  }

  /** More minerals never withdraw an expansion the bot already wanted. */
  lemma ShouldExpandMonotoneInMinerals(s: Snapshot, extra: nat)
    ensures ShouldExpand(s) ==> ShouldExpand(s.(minerals := s.minerals + extra))
  {
  }
}
