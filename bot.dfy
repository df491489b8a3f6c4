/** `on_step` of the zerg bot `MyBot` (bot/main.py:20-123): the per-tick
    policy, run as the source runs it, loop by loop and rule by rule, with the
    early returns. The bot keeps no state between ticks; a tick reads one
    snapshot and issues commands in order. */
module MyBot {
  import opened Sc2
  import opened MyBotHelpers
  import opened MyBotPolicy
  import opened MyBotPlan

  // ---------------------------------------------------------------------------
  // The sections of on_step
  // ---------------------------------------------------------------------------

  /** bot/main.py:24-27: with no townhall left, everything that can fight
      attacks the enemy start location. */
  method AttackWithEverything(s: Snapshot) returns (cmds: seq<Command>, ghost why: seq<Rule>)
    requires |s.Townhalls()| == 0
    ensures |cmds| == |LastStand(s)|
    ensures forall i :: 0 <= i < |cmds| ==> cmds[i] == Attack(LastStand(s)[i].tag, s.enemyStart)
    ensures Explained(s, why, cmds) && Follows(why, LastStandPlan(s))
  {
    var army := LastStand(s);
    cmds, why := [], [];
    for i := 0 to |army|
      invariant |cmds| == i && |why| == i
      invariant forall j :: 0 <= j < i ==> cmds[j] == Attack(army[j].tag, s.enemyStart)
      invariant forall j :: 0 <= j < i ==> why[j] == LastStandAttack(army[j])
    {
      cmds, why := cmds + [Attack(army[i].tag, s.enemyStart)], why + [LastStandAttack(army[i])];
    }
    LastStandExplained(s, cmds, why);
  }

  /** Each unit of the last stand attacking, in order, is what the last-stand
      rule issues and what the plan lists. */
  lemma LastStandExplained(s: Snapshot, cmds: seq<Command>, why: seq<Rule>)
    requires |s.Townhalls()| == 0 && |cmds| == |LastStand(s)| && |why| == |cmds|
    requires forall j :: 0 <= j < |cmds| ==> cmds[j] == Attack(LastStand(s)[j].tag, s.enemyStart)
    requires forall j :: 0 <= j < |cmds| ==> why[j] == LastStandAttack(LastStand(s)[j])
    ensures Explained(s, why, cmds) && Follows(why, LastStandPlan(s))
  {
    forall j | 0 <= j < |cmds|
      ensures Explains(s, why[j], cmds[j])
    {
      assert LastStand(s)[j] in LastStand(s);
    }
  }

  /** bot/main.py:39-42: a worker within 10 of an oversaturated townhall is sent
      to `mineral`, the field `need_worker_mineral` answered for draw `pick`. */
  method SpareWorkerOrder(s: Snapshot, t: Unit, ghost pick: nat, mineral: Option<Unit>)
    returns (cmds: seq<Command>, ghost why: seq<Rule>)
    requires t in ReadyTownhalls(s) && MineralPick(s, pick) && NeedWorkerMineral(s, pick) == Ok(mineral)
    ensures |cmds| <= 1
    ensures |cmds| == 1 <==> Oversaturated(t) && |CloserThanUnits(s.Workers(), 10, t.pos)| > 0 && mineral.Some?
    ensures Explained(s, why, cmds) && NoLarvaTrain(cmds)
    ensures SpareGate(s, t) ==> MovesSpareWorker(s, t, cmds)
    ensures Follows(why, When(SpareGate(s, t), SpareSlot(t)))
  {
    cmds, why := [], [];
    var excessWorker := CloserThanUnits(s.Workers(), 10, t.pos);
    MineralFound(s, pick, mineral);
    if t.assignedHarvesters > t.idealHarvesters && |excessWorker| > 0 && mineral.Some? {
      assert excessWorker[0] in excessWorker;
      var w :| w in excessWorker;
      ghost var u := UndersaturatedTownhalls(s)[pick];
      cmds := [Gather(w.tag, mineral.value.tag)];
      why := [SpareWorker(t, w, u)];
      SpareExplained(s, t, w, u);
    }
  }

  /** `need_worker_mineral` answered a field exactly when some ready townhall is
      undersaturated, and then the field nearest to the drawn one. */
  lemma MineralFound(s: Snapshot, pick: nat, mineral: Option<Unit>)
    requires MineralPick(s, pick) && NeedWorkerMineral(s, pick) == Ok(mineral)
    ensures mineral.Some? <==> |UndersaturatedTownhalls(s)| > 0
    ensures mineral.Some? ==>
      (pick < |UndersaturatedTownhalls(s)| && |s.mineralFields| > 0 &&
       mineral.value == ClosestTo(s.mineralFields, UndersaturatedTownhalls(s)[pick].pos))
  {
  }

  /** bot/main.py:44-49: a ready, idle townhall with no queen within 10 trains
      one once a spawning pool is ready and a queen is affordable. */
  method QueenOrder(s: Snapshot, t: Unit) returns (cmds: seq<Command>, ghost why: seq<Rule>)
    requires t in ReadyTownhalls(s)
    ensures cmds == if QueenGate(s, t) then [Train(t.tag, Queen)] else []
    ensures Explained(s, why, cmds) && NoLarvaTrain(cmds)
    ensures Follows(why, When(QueenGate(s, t), QueenSlot(t)))
  {
    cmds, why := [], [];
    if |ReadyOnes(s.UnitsOf(SpawningPool))| > 0 && t.isReady && t.isIdle &&
       |CloserThanUnits(s.UnitsOf(Queen), 10, t.pos)| == 0 && Queen in s.affordable
    {
      assert Explains(s, QueenTrain(t), Train(t.tag, Queen));
      ExplainedSingle(s, QueenTrain(t), Train(t.tag, Queen));
      cmds, why := [Train(t.tag, Queen)], [QueenTrain(t)];
    }
  }

  /** bot/main.py:51-56: the first idle queen within 10 of the townhall injects
      it with larvae when the ability is available. */
  method InjectOrder(s: Snapshot, t: Unit) returns (cmds: seq<Command>, ghost why: seq<Rule>)
    requires t in ReadyTownhalls(s)
    ensures cmds == if InjectGate(s, t) then [Inject(IdleQueensNear(s, t)[0].tag, t.tag)] else []
    ensures Explained(s, why, cmds) && NoLarvaTrain(cmds)
    ensures Follows(why, When(InjectGate(s, t), InjectSlot(t)))
  {
    cmds, why := [], [];
    var queenNearby := IdleQueensNear(s, t);
    if |queenNearby| > 0 {
      var queen := queenNearby[0];
      if queen.injectAvailable {
        assert Explains(s, InjectLarva(t), Inject(queen.tag, t.tag));
        ExplainedSingle(s, InjectLarva(t), Inject(queen.tag, t.tag));
        cmds, why := [Inject(queen.tag, t.tag)], [InjectLarva(t)];
      }
    }
  }

  /** bot/main.py:39-56, one ready townhall that did not train a drone: ask
      `need_worker_mineral`, which raises when some townhall is undersaturated
      and the map has no mineral field; then move a spare worker, train a queen,
      inject larvae. */
  method TownhallUpkeep(s: Snapshot, t: Unit) returns (cmds: seq<Command>, fault: Option<Fault>, ghost why: seq<Rule>)
    requires t in ReadyTownhalls(s)
    ensures Explained(s, why, cmds) && NoLarvaTrain(cmds)
    ensures fault.Some? <==> |UndersaturatedTownhalls(s)| > 0 && |s.mineralFields| == 0
    ensures fault.Some? ==> fault == Some(NoMineralField) && cmds == []
    ensures fault == None ==> UpkeepDone(s, t, cmds) && Follows(why, UpkeepPlan(s, t))
  {
    cmds, fault, why := [], None, [];
    var pick: nat :| MineralPick(s, pick);
    var m := NeedWorkerMineral(s, pick);
    if m.Err? {
      fault := Some(m.error);
      return;
    }
    var spare;
    ghost var w1, w2, w3;
    spare, w1 := SpareWorkerOrder(s, t, pick, m.value);
    var queen, inject;
    queen, w2 := QueenOrder(s, t);
    inject, w3 := InjectOrder(s, t);
    ExplainedAppend(s, w2, queen, w3, inject);
    ExplainedAppend(s, w1, spare, w2 + w3, queen + inject);
    UpkeepParts(s, t, spare, queen, inject);
    FollowsAppend(w2, When(QueenGate(s, t), QueenSlot(t)), w3, When(InjectGate(s, t), InjectSlot(t)));
    FollowsAppend(w1, When(SpareGate(s, t), SpareSlot(t)), w2 + w3,
                  When(QueenGate(s, t), QueenSlot(t)) + When(InjectGate(s, t), InjectSlot(t)));
    cmds, why := spare + (queen + inject), w1 + (w2 + w3);
  }

  /** The rule behind the spare-worker order of townhall `t`: worker `w` is sent
      to the field nearest to the undersaturated townhall `u`. */
  lemma SpareExplained(s: Snapshot, t: Unit, w: Unit, u: Unit)
    requires t in ReadyTownhalls(s) && Oversaturated(t) && w in CloserThanUnits(s.Workers(), 10, t.pos)
    requires u in UndersaturatedTownhalls(s) && |s.mineralFields| > 0
    ensures Explained(s, [SpareWorker(t, w, u)], [Gather(w.tag, ClosestTo(s.mineralFields, u.pos).tag)])
    ensures MovesSpareWorker(s, t, [Gather(w.tag, ClosestTo(s.mineralFields, u.pos).tag)])
    ensures NoLarvaTrain([Gather(w.tag, ClosestTo(s.mineralFields, u.pos).tag)])
    ensures Follows([SpareWorker(t, w, u)], [SpareSlot(t)])
  {
    var c := Gather(w.tag, ClosestTo(s.mineralFields, u.pos).tag);
    assert SpareWorkerFires(s, t, w, u, c);
    ExplainedSingle(s, SpareWorker(t, w, u), c);
    SpareMoves(s, t, w, u);
  }

  lemma SpareMoves(s: Snapshot, t: Unit, w: Unit, u: Unit)
    requires w in CloserThanUnits(s.Workers(), 10, t.pos)
    requires u in UndersaturatedTownhalls(s) && |s.mineralFields| > 0
    ensures MovesSpareWorker(s, t, [Gather(w.tag, ClosestTo(s.mineralFields, u.pos).tag)])
  {
    var m := ClosestTo(s.mineralFields, u.pos);
    SpareMineral(s, u);
    assert Gather(w.tag, m.tag) in [Gather(w.tag, m.tag)];
  }

  /** The three upkeep orders of townhall `t` together. */
  lemma UpkeepParts(s: Snapshot, t: Unit, spare: seq<Command>, queen: seq<Command>, inject: seq<Command>)
    requires SpareGate(s, t) ==> MovesSpareWorker(s, t, spare)
    requires NoLarvaTrain(spare) && NoLarvaTrain(queen) && NoLarvaTrain(inject)
    requires queen == if QueenGate(s, t) then [Train(t.tag, Queen)] else []
    requires inject == if InjectGate(s, t) then [Inject(IdleQueensNear(s, t)[0].tag, t.tag)] else []
    ensures UpkeepDone(s, t, spare + (queen + inject)) && NoLarvaTrain(spare + (queen + inject))
  {
    NoLarvaAppend(queen, inject);
    NoLarvaAppend(spare, queen + inject);
    if SpareGate(s, t) {
      var w, m :| w in CloserThanUnits(s.Workers(), 10, t.pos) && IsSpareWorkerMineral(s, m) &&
        Gather(w.tag, m.tag) in spare;
      assert Gather(w.tag, m.tag) in spare + (queen + inject);
    }
    if QueenGate(s, t) {
      assert Train(t.tag, Queen) in queen;
      assert Train(t.tag, Queen) in spare + (queen + inject);
    }
    if InjectGate(s, t) {
      assert Inject(IdleQueensNear(s, t)[0].tag, t.tag) in inject;
      assert Inject(IdleQueensNear(s, t)[0].tag, t.tag) in spare + (queen + inject);
    }
  }

  /** bot/main.py:35-36: a random larva is turned into a drone. */
  method TrainFromLarva(s: Snapshot, k: UnitType) returns (c: Command, ghost why: Rule)
    requires LarvaGate(s, k)
    ensures c.Train? && c.product == k && Explains(s, why, c) && SlotOf(why) == TrainSlot(k)
  {
    assert s.Larvae()[0] in s.Larvae();
    var l :| l in s.Larvae();
    c, why := Train(l.tag, k), LarvaTrain(l, k);
  }

  /** The townhall loop has handled the first `i` ready townhalls without
      training a drone or raising. */
  ghost predicate PassSoFar(s: Snapshot, i: nat, cmds: seq<Command>, why: seq<Rule>) {
    i <= |ReadyTownhalls(s)| &&
    Explained(s, why, cmds) && NoLarvaTrain(cmds) &&
    (forall j :: 0 <= j < i ==> !DroneHere(s, ReadyTownhalls(s)[j])) &&
    (i > 0 ==> !(|UndersaturatedTownhalls(s)| > 0 && |s.mineralFields| == 0)) &&
    (i == 0 ==> cmds == [] && why == []) &&
    UpkeepsDone(s, i, cmds) && Follows(why, UpkeepsPlan(s, i))
  }

  /** The upkeep of the next townhall extends the loop's progress. */
  lemma PassAdvance(s: Snapshot, i: nat, cmds: seq<Command>, why: seq<Rule>, upkeep: seq<Command>, w: seq<Rule>)
    requires PassSoFar(s, i, cmds, why) && i < |ReadyTownhalls(s)|
    requires !DroneHere(s, ReadyTownhalls(s)[i]) && !(|UndersaturatedTownhalls(s)| > 0 && |s.mineralFields| == 0)
    requires Explained(s, w, upkeep) && NoLarvaTrain(upkeep) && UpkeepDone(s, ReadyTownhalls(s)[i], upkeep)
    requires Follows(w, UpkeepPlan(s, ReadyTownhalls(s)[i]))
    ensures PassSoFar(s, i + 1, cmds + upkeep, why + w)
  {
    UpkeepsAdvance(s, i, cmds, upkeep);
    PlanAdvance(s, i, why, w);
    NoDroneAdvance(s, i);
    ExplainedAppend(s, why, cmds, w, upkeep);
    NoLarvaAppend(cmds, upkeep);
  }

  lemma UpkeepsAdvance(s: Snapshot, i: nat, cmds: seq<Command>, upkeep: seq<Command>)
    requires UpkeepsDone(s, i, cmds) && i < |ReadyTownhalls(s)| && UpkeepDone(s, ReadyTownhalls(s)[i], upkeep)
    ensures UpkeepsDone(s, i + 1, cmds + upkeep)
  {
    UpkeepsKept(s, i, cmds, upkeep);
    UpkeepKept(s, ReadyTownhalls(s)[i], cmds, upkeep);
    UpkeepsSnoc(s, i, cmds + upkeep);
  }

  lemma NoDroneAdvance(s: Snapshot, i: nat)
    requires i < |ReadyTownhalls(s)| && !DroneHere(s, ReadyTownhalls(s)[i])
    requires forall j :: 0 <= j < i ==> !DroneHere(s, ReadyTownhalls(s)[j])
    ensures forall j :: 0 <= j < i + 1 ==> !DroneHere(s, ReadyTownhalls(s)[j])
  {
  }

  lemma PlanAdvance(s: Snapshot, i: nat, why: seq<Rule>, w: seq<Rule>)
    requires i < |ReadyTownhalls(s)| && Follows(why, UpkeepsPlan(s, i))
    requires Follows(w, UpkeepPlan(s, ReadyTownhalls(s)[i]))
    ensures Follows(why + w, UpkeepsPlan(s, i + 1))
  {
    FollowsAppend(why, UpkeepsPlan(s, i), w, UpkeepPlan(s, ReadyTownhalls(s)[i]));
  }

  /** One more townhall's upkeep extends the upkeep of the first `n`. */
  lemma UpkeepsSnoc(s: Snapshot, n: nat, cmds: seq<Command>)
    requires UpkeepsDone(s, n, cmds) && n < |ReadyTownhalls(s)| && UpkeepDone(s, ReadyTownhalls(s)[n], cmds)
    ensures UpkeepsDone(s, n + 1, cmds)
  {
    forall j | 0 <= j < n + 1
      ensures UpkeepDone(s, ReadyTownhalls(s)[j], cmds)
    {
      if j < n {
        assert UpkeepDone(s, ReadyTownhalls(s)[j], cmds);
      }
    }
  }

  /** The upkeep of the first `n` ready townhalls stays in the batch when
      more commands follow. */
  lemma UpkeepsKept(s: Snapshot, n: nat, a: seq<Command>, b: seq<Command>)
    requires UpkeepsDone(s, n, a)
    ensures UpkeepsDone(s, n, a + b)
  {
    forall j | 0 <= j < n
      ensures UpkeepDone(s, ReadyTownhalls(s)[j], a + b)
    {
      UpkeepKept(s, ReadyTownhalls(s)[j], a, b);
    }
  }

  /** The loop stops at townhall `i` to train a drone. */
  lemma PassTrains(s: Snapshot, i: nat)
    requires i < |ReadyTownhalls(s)| && DroneHere(s, ReadyTownhalls(s)[i])
    requires i > 0 ==> !(|UndersaturatedTownhalls(s)| > 0 && |s.mineralFields| == 0)
    ensures !PassFault(s) && DroneGate(s)
  {
    assert ReadyTownhalls(s)[i] in UndersaturatedTownhalls(s);
  }

  /** The drone trained at townhall `i` closes the loop's batch. */
  lemma PassStops(s: Snapshot, i: nat, cmds: seq<Command>, why: seq<Rule>, c: Command, r: Rule)
    requires PassSoFar(s, i, cmds, why) && i < |ReadyTownhalls(s)| && DroneHere(s, ReadyTownhalls(s)[i])
    requires Explains(s, r, c) && c.Train? && c.product == Drone && SlotOf(r) == TrainSlot(Drone)
    ensures !PassFault(s) && DroneGate(s)
    ensures Explained(s, why + [r], cmds + [c])
    ensures LarvaLast(cmds + [c]) && LastLarvaProduct(cmds + [c]) == Some(Drone)
    ensures UpkeepsDone(s, FirstDrone(s), cmds + [c]) && Follows(why + [r], PassPlan(s))
  {
    PassTrains(s, i);
    FirstDroneIs(s, i);
    LarvaTrainLast(s, why, cmds, r, c);
    UpkeepsKept(s, i, cmds, [c]);
    PlanStops(s, i, why, r);
  }

  lemma PlanStops(s: Snapshot, i: nat, why: seq<Rule>, r: Rule)
    requires !PassFault(s) && FirstDrone(s) == i && i < |ReadyTownhalls(s)|
    requires Follows(why, UpkeepsPlan(s, i)) && SlotOf(r) == TrainSlot(Drone)
    ensures Follows(why + [r], PassPlan(s))
  {
    FollowsAppend(why, UpkeepsPlan(s, i), [r], [TrainSlot(Drone)]);
  }

  /** The loop raises at townhall `i`: `need_worker_mineral` found no mineral
      field. That can only happen at the first townhall, before any command. */
  lemma PassRaises(s: Snapshot, i: nat, cmds: seq<Command>, why: seq<Rule>)
    requires PassSoFar(s, i, cmds, why) && i < |ReadyTownhalls(s)| && !DroneHere(s, ReadyTownhalls(s)[i])
    requires |UndersaturatedTownhalls(s)| > 0 && |s.mineralFields| == 0
    ensures PassFault(s) && cmds == [] && Follows(why, PassPlan(s))
  {
  }

  /** The loop runs through every ready townhall: none trains a drone and
      nothing raises. */
  lemma PassEnds(s: Snapshot)
    requires forall j :: 0 <= j < |ReadyTownhalls(s)| ==> !DroneHere(s, ReadyTownhalls(s)[j])
    requires |ReadyTownhalls(s)| > 0 ==> !(|UndersaturatedTownhalls(s)| > 0 && |s.mineralFields| == 0)
    ensures !PassFault(s) && !DroneGate(s)
  {
    var ready := ReadyTownhalls(s);
    var under := UndersaturatedTownhalls(s);
    if |under| > 0 {
      assert under[0] in under;
      var j :| 0 <= j < |ready| && ready[j] == under[0];
      assert !DroneHere(s, ready[j]);
    }
  }

  /** The loop runs through every ready townhall: its batch follows the
      plan and has done the upkeep of every townhall. */
  lemma PassFinishes(s: Snapshot, i: nat, cmds: seq<Command>, why: seq<Rule>)
    requires PassSoFar(s, i, cmds, why) && i >= |ReadyTownhalls(s)|
    ensures !PassFault(s) && !DroneGate(s)
    ensures UpkeepsDone(s, FirstDrone(s), cmds) && UpkeepAll(s, cmds) && Follows(why, PassPlan(s))
  {
    PassEnds(s);
    FirstDroneIs(s, |ReadyTownhalls(s)|);
    PassUpkeepAll(s, cmds, why);
  }

  /** The loop runs through every ready townhall: each got its upkeep. */
  lemma PassUpkeepAll(s: Snapshot, cmds: seq<Command>, why: seq<Rule>)
    requires PassSoFar(s, |ReadyTownhalls(s)|, cmds, why)
    ensures UpkeepAll(s, cmds)
  {
    var ready := ReadyTownhalls(s);
    forall t | t in ready
      ensures UpkeepDone(s, t, cmds)
    {
      var j :| 0 <= j < |ready| && ready[j] == t;
      assert UpkeepDone(s, ready[j], cmds);
    }
  }

  /** A ready townhall where a drone is trained makes the drone gate hold. */
  lemma DroneGateAt(s: Snapshot, t: Unit)
    requires t in ReadyTownhalls(s) && DroneHere(s, t)
    ensures DroneGate(s)
  {
    assert t in UndersaturatedTownhalls(s);
  }

  /** bot/main.py:31-56: the loop over the ready townhalls. The first one that is
      undersaturated trains a drone, when a drone is affordable and a larva
      exists, and ends the tick; every townhall before it gets its upkeep, and
      `need_worker_mineral` may raise on the way. */
  method TownhallPass(s: Snapshot) returns (cmds: seq<Command>, fault: Option<Fault>, trained: bool, ghost why: seq<Rule>)
    ensures Explained(s, why, cmds)
    ensures fault.Some? <==> PassFault(s)
    ensures fault.Some? ==> fault == Some(NoMineralField) && !trained && cmds == []
    ensures trained <==> !PassFault(s) && DroneGate(s)
    ensures trained ==> LarvaLast(cmds) && LastLarvaProduct(cmds) == Some(Drone)
    ensures !trained ==> NoLarvaTrain(cmds)
    ensures fault == None ==> UpkeepsDone(s, FirstDrone(s), cmds)
    ensures !trained && fault == None ==> UpkeepAll(s, cmds)
    ensures Follows(why, PassPlan(s))
  {
    cmds, fault, trained, why := [], None, false, [];
    var ready := ReadyTownhalls(s);
    var i: nat := 0;
    while i < |ready|
      invariant PassSoFar(s, i, cmds, why)
    {
      var t := ready[i];
      if t.assignedHarvesters < t.idealHarvesters && Drone in s.affordable && |s.Larvae()| > 0 {
        assert t in ready;
        DroneGateAt(s, t);
        var c;
        ghost var r;
        c, r := TrainFromLarva(s, Drone);
        PassStops(s, i, cmds, why, c, r);
        cmds, trained, why := cmds + [c], true, why + [r];
        return;
      }
      var f;
      cmds, f, why, i := PassVisit(s, i, cmds, why);
      if f.Some? {
        fault := f;
        return;
      }
    }
    PassFinishes(s, i, cmds, why);
  }

  /** The loop's visit to townhall `i`, which does not train a drone: its
      upkeep, or the fault `need_worker_mineral` raises. */
  method PassVisit(s: Snapshot, i: nat, cmds: seq<Command>, ghost why: seq<Rule>)
    returns (cmds': seq<Command>, fault: Option<Fault>, ghost why': seq<Rule>, next: nat)
    requires PassSoFar(s, i, cmds, why) && i < |ReadyTownhalls(s)| && !DroneHere(s, ReadyTownhalls(s)[i])
    ensures next == i + 1
    ensures fault.Some? ==> fault == Some(NoMineralField) && PassFault(s) && cmds' == [] && why' == []
    ensures fault.Some? ==> Follows(why', PassPlan(s))
    ensures fault == None ==> PassSoFar(s, next, cmds', why')
  {
    next := i + 1;
    var t := ReadyTownhalls(s)[i];
    assert t in ReadyTownhalls(s);
    var upkeep;
    ghost var w;
    upkeep, fault, w := TownhallUpkeep(s, t);
    if fault.Some? {
      PassRaises(s, i, cmds, why);
      cmds', why' := cmds, why;
      return;
    }
    PassAdvance(s, i, cmds, why, upkeep, w);
    cmds', why' := cmds + upkeep, why + w;
  }

  /** One more explained command that spends no larva. */
  lemma BatchSnoc(s: Snapshot, why: seq<Rule>, cmds: seq<Command>, r: Rule, c: Command)
    requires Explained(s, why, cmds) && NoLarvaTrain(cmds)
    requires Explains(s, r, c) && !ConsumesLarva(c)
    ensures Explained(s, why + [r], cmds + [c]) && NoLarvaTrain(cmds + [c])
  {
    ExplainedSingle(s, r, c);
    ExplainedAppend(s, why, cmds, [r], [c]);
    NoLarvaAppend(cmds, [c]);
  }

  /** bot/main.py:58-60: near full supply every idle zergling and hydralisk
      attacks a target `select_target` draws afresh for it. */
  method ArmyAttacks(s: Snapshot) returns (cmds: seq<Command>, ghost why: seq<Rule>)
    requires |s.Townhalls()| > 0 && s.supplyUsed > 190
    ensures |cmds| == |IdleOnes(s.Forces())|
    ensures forall j :: 0 <= j < |cmds| ==> cmds[j].Attack? && cmds[j].unit == IdleOnes(s.Forces())[j].tag
    ensures Explained(s, why, cmds) && NoLarvaTrain(cmds)
    ensures Follows(why, AttackPlan(s))
  {
    var idle := IdleOnes(s.Forces());
    cmds, why := [], [];
    for i := 0 to |idle|
      invariant |cmds| == i
      invariant forall j :: 0 <= j < i ==> cmds[j].Attack? && cmds[j].unit == idle[j].tag
      invariant Explained(s, why, cmds) && NoLarvaTrain(cmds)
      invariant forall j :: 0 <= j < i ==> SlotOf(why[j]) == AttackSlot(idle[j])
    {
      assert TargetPick(s, 0);
      var pick: nat :| TargetPick(s, pick);
      var c := Attack(idle[i].tag, SelectTarget(s, pick));
      assert idle[i] in idle;
      BatchSnoc(s, why, cmds, ArmyAttack(idle[i], pick), c);
      cmds, why := cmds + [c], why + [ArmyAttack(idle[i], pick)];
    }
  }

  /** bot/main.py:61-64: otherwise every zergling and hydralisk more than 10 away
      from the townhall furthest from the start location moves to a point at
      distance 5 from it. */
  method ArmyMoves(s: Snapshot) returns (cmds: seq<Command>, ghost why: seq<Rule>)
    requires |s.Townhalls()| > 0 && s.supplyUsed <= 190
    ensures |cmds| == |FurtherThanUnits(s.Forces(), 10, FarHatch(s).pos)|
    ensures forall j :: 0 <= j < |cmds| ==>
      cmds[j].Move? && cmds[j].unit == FurtherThanUnits(s.Forces(), 10, FarHatch(s).pos)[j].tag
    ensures Explained(s, why, cmds) && NoLarvaTrain(cmds)
    ensures Follows(why, MovePlan(s))
  {
    var farH := FurthestTo(s.Townhalls(), s.startLocation);
    var away := FurtherThanUnits(s.Forces(), 10, farH.pos);
    cmds, why := [], [];
    for i := 0 to |away|
      invariant MovesSoFar(s, i, cmds, why)
    {
      assert away[i] in away;
      var c;
      ghost var r;
      c, r := MoveNear(s, away[i], farH.pos);
      MovesAdvance(s, i, cmds, why, c, r);
      cmds, why := cmds + [c], why + [r];
    }
  }

  /** The first `i` forces away from the furthest townhall have been moved, in
      order. */
  ghost predicate MovesSoFar(s: Snapshot, i: nat, cmds: seq<Command>, why: seq<Rule>)
    requires |s.Townhalls()| > 0
  {
    var away := FurtherThanUnits(s.Forces(), 10, FarHatch(s).pos);
    i <= |away| && |cmds| == i && |why| == i &&
    (forall j :: 0 <= j < i ==> cmds[j].Move? && cmds[j].unit == away[j].tag) &&
    Explained(s, why, cmds) && NoLarvaTrain(cmds) &&
    Follows(why, MovePlan(s)[..i])
  }

  lemma MovesAdvance(s: Snapshot, i: nat, cmds: seq<Command>, why: seq<Rule>, c: Command, r: Rule)
    requires |s.Townhalls()| > 0 && MovesSoFar(s, i, cmds, why)
    requires i < |FurtherThanUnits(s.Forces(), 10, FarHatch(s).pos)|
    requires c.Move? && c.unit == FurtherThanUnits(s.Forces(), 10, FarHatch(s).pos)[i].tag
    requires Explains(s, r, c) && !ConsumesLarva(c)
    requires SlotOf(r) == MoveSlot(FurtherThanUnits(s.Forces(), 10, FarHatch(s).pos)[i])
    ensures MovesSoFar(s, i + 1, cmds + [c], why + [r])
  {
    BatchSnoc(s, why, cmds, r, c);
    assert MovePlan(s)[..i + 1] == MovePlan(s)[..i] + [MoveSlot(FurtherThanUnits(s.Forces(), 10, FarHatch(s).pos)[i])];
    FollowsAppend(why, MovePlan(s)[..i], [r], [SlotOf(r)]);
  }

  /** bot/main.py:64: force `f` moves to a point `random_on_distance(5)` draws
      around `centre`, the position of the furthest townhall. */
  method MoveNear(s: Snapshot, f: Unit, centre: Point) returns (c: Command, ghost why: Rule)
    requires |s.Townhalls()| > 0 && s.supplyUsed <= 190 && centre == FarHatch(s).pos
    requires f in FurtherThanUnits(s.Forces(), 10, centre)
    ensures c.Move? && c.unit == f.tag && Explains(s, why, c) && !ConsumesLarva(c)
    ensures SlotOf(why) == MoveSlot(f)
  {
    assert Point(centre.x + 5, centre.y) in RingOfFive(centre);
    var p :| p in RingOfFive(centre);
    c, why := Move(f.tag, p), ArmyMove(f);
  }

  /** Attack orders for all idle forces complete the army rule near full supply. */
  lemma ArmyAttacksDone(s: Snapshot, cmds: seq<Command>)
    requires |s.Townhalls()| > 0 && s.supplyUsed > 190
    requires |cmds| == |IdleOnes(s.Forces())|
    requires forall j :: 0 <= j < |cmds| ==> cmds[j].Attack? && cmds[j].unit == IdleOnes(s.Forces())[j].tag
    ensures ArmyDone(s, cmds)
  {
    var idle := IdleOnes(s.Forces());
    forall f | f in idle
      ensures Ordered(cmds, f.tag)
    {
      var j :| 0 <= j < |idle| && idle[j] == f;
      assert cmds[j] in cmds;
    }
  }

  /** Move orders for all far forces complete the army rule below full supply. */
  lemma ArmyMovesDone(s: Snapshot, cmds: seq<Command>)
    requires |s.Townhalls()| > 0 && s.supplyUsed <= 190
    requires |cmds| == |FurtherThanUnits(s.Forces(), 10, FarHatch(s).pos)|
    requires forall j :: 0 <= j < |cmds| ==>
      cmds[j].Move? && cmds[j].unit == FurtherThanUnits(s.Forces(), 10, FarHatch(s).pos)[j].tag
    ensures ArmyDone(s, cmds)
  {
    var away := FurtherThanUnits(s.Forces(), 10, FarHatch(s).pos);
    forall f | f in away
      ensures Ordered(cmds, f.tag)
    {
      var j :| 0 <= j < |away| && away[j] == f;
      assert cmds[j] in cmds;
    }
  }

  /** bot/main.py:58-64: the army rule. */
  method ArmyOrders(s: Snapshot) returns (cmds: seq<Command>, ghost why: seq<Rule>)
    requires |s.Townhalls()| > 0
    ensures Explained(s, why, cmds) && NoLarvaTrain(cmds)
    ensures ArmyDone(s, cmds) && Follows(why, ArmyPlan(s))
  {
    if s.supplyUsed > 190 {
      cmds, why := ArmyAttacks(s);
      ArmyAttacksDone(s, cmds);
    } else {
      cmds, why := ArmyMoves(s);
      ArmyMovesDone(s, cmds);
    }
  }

  /** The orders `upgrade` gets: its research when the gate holds. */
  function ResearchOrder(s: Snapshot, up: Upgrade): seq<Command> {
    if ResearchGate(s, up) then [Research(Researcher(s, up), up)] else []
  }

  function ResearchRule(s: Snapshot, up: Upgrade): seq<Rule> {
    if ResearchGate(s, up) then [UpgradeResearch(up)] else []
  }

  function LairOrder(s: Snapshot): seq<Command>
    requires |s.Townhalls()| > 0
  {
    if LairGate(s) then [Morph(Hq(s).tag, Lair)] else []
  }

  function LairRule(s: Snapshot): seq<Rule>
    requires |s.Townhalls()| > 0
  {
    if LairGate(s) then [LairMorph] else []
  }

  /** A research order is issued by the research rule, in the plan's slot. */
  lemma ResearchExplained(s: Snapshot, up: Upgrade)
    ensures Explained(s, ResearchRule(s, up), ResearchOrder(s, up)) && NoLarvaTrain(ResearchOrder(s, up))
    ensures Follows(ResearchRule(s, up), When(ResearchGate(s, up), ResearchSlot(up)))
  {
  }

  lemma LairExplained(s: Snapshot)
    requires |s.Townhalls()| > 0
    ensures Explained(s, LairRule(s), LairOrder(s)) && NoLarvaTrain(LairOrder(s))
    ensures Follows(LairRule(s), When(LairGate(s), LairSlot))
  {
  }

  /** Two explained batches that spend no larva, each following its plan, one after the other. */
  lemma BatchJoin(s: Snapshot, c1: seq<Command>, w1: seq<Rule>, p1: seq<Slot>, c2: seq<Command>, w2: seq<Rule>, p2: seq<Slot>)
    requires Explained(s, w1, c1) && NoLarvaTrain(c1) && Follows(w1, p1)
    requires Explained(s, w2, c2) && NoLarvaTrain(c2) && Follows(w2, p2)
    ensures Explained(s, w1 + w2, c1 + c2) && NoLarvaTrain(c1 + c2) && Follows(w1 + w2, p1 + p2)
  {
    ExplainedAppend(s, w1, c1, w2, c2);
    NoLarvaAppend(c1, c2);
    FollowsAppend(w1, p1, w2, p2);
  }

  /** bot/main.py:72-78: with a ready spawning pool, research zergling speed and
      morph `hq` into a lair. */
  method PoolTech(s: Snapshot) returns (cmds: seq<Command>, ghost why: seq<Rule>)
    requires |s.Townhalls()| > 0
    ensures cmds == ResearchOrder(s, ZerglingMovementSpeed) + LairOrder(s)
    ensures Explained(s, why, cmds) && NoLarvaTrain(cmds)
    ensures Follows(why, When(ResearchGate(s, ZerglingMovementSpeed), ResearchSlot(ZerglingMovementSpeed)) +
                         When(LairGate(s), LairSlot))
  {
    cmds := [];
    var hq := ClosestTo(s.Townhalls(), s.startLocation);
    var sp := ReadyOnes(s.UnitsOf(SpawningPool));
    if |sp| > 0 {
      if ZerglingMovementSpeed !in s.upgrades && ZerglingMovementSpeed in s.affordableUpgrades {
        cmds := cmds + [Research(sp[0].tag, ZerglingMovementSpeed)];
      }
      assert cmds == ResearchOrder(s, ZerglingMovementSpeed);
      if |s.UnitsOf(Lair)| == 0 && hq.isIdle {
        if Lair in s.affordable {
          cmds := cmds + [Morph(hq.tag, Lair)];
        }
      }
    }
    why := ResearchRule(s, ZerglingMovementSpeed) + LairRule(s);
    ResearchExplained(s, ZerglingMovementSpeed);
    LairExplained(s);
    BatchJoin(s, ResearchOrder(s, ZerglingMovementSpeed), ResearchRule(s, ZerglingMovementSpeed),
              When(ResearchGate(s, ZerglingMovementSpeed), ResearchSlot(ZerglingMovementSpeed)),
              LairOrder(s), LairRule(s), When(LairGate(s), LairSlot));
  }

  /** bot/main.py:80-85: with a ready hydralisk den, research the two
      hydralisk upgrades. */
  method DenTech(s: Snapshot) returns (cmds: seq<Command>, ghost why: seq<Rule>)
    ensures cmds == ResearchOrder(s, EvolveMuscularAugments) + ResearchOrder(s, EvolveGroovedSpines)
    ensures Explained(s, why, cmds) && NoLarvaTrain(cmds)
    ensures Follows(why, When(ResearchGate(s, EvolveMuscularAugments), ResearchSlot(EvolveMuscularAugments)) +
                         When(ResearchGate(s, EvolveGroovedSpines), ResearchSlot(EvolveGroovedSpines)))
  {
    cmds := [];
    var hd := ReadyOnes(s.UnitsOf(HydraliskDen));
    if |hd| > 0 {
      if EvolveMuscularAugments !in s.upgrades && EvolveMuscularAugments in s.affordableUpgrades {
        cmds := cmds + [Research(hd[0].tag, EvolveMuscularAugments)];
      }
      if EvolveGroovedSpines !in s.upgrades && EvolveGroovedSpines in s.affordableUpgrades {
        cmds := cmds + [Research(hd[0].tag, EvolveGroovedSpines)];
      }
    }
    why := ResearchRule(s, EvolveMuscularAugments) + ResearchRule(s, EvolveGroovedSpines);
    ResearchExplained(s, EvolveMuscularAugments);
    ResearchExplained(s, EvolveGroovedSpines);
    BatchJoin(s, ResearchOrder(s, EvolveMuscularAugments), ResearchRule(s, EvolveMuscularAugments),
              When(ResearchGate(s, EvolveMuscularAugments), ResearchSlot(EvolveMuscularAugments)),
              ResearchOrder(s, EvolveGroovedSpines), ResearchRule(s, EvolveGroovedSpines),
              When(ResearchGate(s, EvolveGroovedSpines), ResearchSlot(EvolveGroovedSpines)));
  }

  /** The research and lair batches joined follow the research plan. */
  lemma TechJoin(s: Snapshot, pool: seq<Command>, den: seq<Command>, w1: seq<Rule>, w2: seq<Rule>)
    requires |s.Townhalls()| > 0
    requires Explained(s, w1, pool) && NoLarvaTrain(pool) && Explained(s, w2, den) && NoLarvaTrain(den)
    requires Follows(w1, When(ResearchGate(s, ZerglingMovementSpeed), ResearchSlot(ZerglingMovementSpeed)) +
                         When(LairGate(s), LairSlot))
    requires Follows(w2, When(ResearchGate(s, EvolveMuscularAugments), ResearchSlot(EvolveMuscularAugments)) +
                         When(ResearchGate(s, EvolveGroovedSpines), ResearchSlot(EvolveGroovedSpines)))
    ensures Explained(s, w1 + w2, pool + den) && NoLarvaTrain(pool + den) && Follows(w1 + w2, TechPlan(s))
  {
    FollowsAppend(w1, When(ResearchGate(s, ZerglingMovementSpeed), ResearchSlot(ZerglingMovementSpeed)) + When(LairGate(s), LairSlot),
                  w2, When(ResearchGate(s, EvolveMuscularAugments), ResearchSlot(EvolveMuscularAugments)) +
                      When(ResearchGate(s, EvolveGroovedSpines), ResearchSlot(EvolveGroovedSpines)));
    ExplainedAppend(s, w1, pool, w2, den);
    NoLarvaAppend(pool, den);
  }

  lemma TechParts(s: Snapshot, pool: seq<Command>, den: seq<Command>)
    requires |s.Townhalls()| > 0
    requires pool == ResearchOrder(s, ZerglingMovementSpeed) + LairOrder(s)
    requires den == ResearchOrder(s, EvolveMuscularAugments) + ResearchOrder(s, EvolveGroovedSpines)
    ensures TechDone(s, pool + den)
  {
    var all := pool + den;
    if ResearchGate(s, ZerglingMovementSpeed) {
      assert all[0] == Research(Researcher(s, ZerglingMovementSpeed), ZerglingMovementSpeed);
    }
    if LairGate(s) {
      assert all[|pool| - 1] == Morph(Hq(s).tag, Lair);
    }
    if ResearchGate(s, EvolveMuscularAugments) {
      assert all[|pool|] == Research(Researcher(s, EvolveMuscularAugments), EvolveMuscularAugments);
    }
    if ResearchGate(s, EvolveGroovedSpines) {
      assert all[|all| - 1] == Research(Researcher(s, EvolveGroovedSpines), EvolveGroovedSpines);
    }
  }

  /** bot/main.py:90-92: a spawning pool near `hq` when there is none, built or pending. */
  method PoolOrder(s: Snapshot) returns (cmds: seq<Command>, ghost why: seq<Rule>)
    requires |s.Townhalls()| > 0
    ensures cmds == if PoolGate(s) then [BuildNear(SpawningPool, Hq(s).pos)] else []
    ensures Explained(s, why, cmds) && NoLarvaTrain(cmds) && Follows(why, When(PoolGate(s), PoolSlot))
  {
    cmds, why := [], [];
    var hq := ClosestTo(s.Townhalls(), s.startLocation);
    if !(|s.UnitsOf(SpawningPool)| > 0 || s.Pending(SpawningPool) > 0) {
      if SpawningPool in s.affordable {
        var c := BuildNear(SpawningPool, hq.pos);
        BatchSnoc(s, why, cmds, PoolBuild, c);
        cmds, why := [c], [PoolBuild];
      }
    }
  }

  /** bot/main.py:94-95: an expansion when `should_expand` says so. */
  method ExpandOrder(s: Snapshot) returns (cmds: seq<Command>, ghost why: seq<Rule>)
    ensures cmds == if ShouldExpand(s) then [ExpandNow] else []
    ensures Explained(s, why, cmds) && NoLarvaTrain(cmds) && Follows(why, When(ShouldExpand(s), ExpandSlot))
  {
    cmds, why := [], [];
    if ShouldExpand(s) {
      BatchSnoc(s, why, cmds, Expansion, ExpandNow);
      cmds, why := [ExpandNow], [Expansion];
    }
  }

  /** bot/main.py:97-100: a hydralisk den near `hq` once a lair is ready and
      there is no den, built or pending. */
  method DenOrder(s: Snapshot) returns (cmds: seq<Command>, ghost why: seq<Rule>)
    requires |s.Townhalls()| > 0
    ensures cmds == if DenGate(s) then [BuildNear(HydraliskDen, Hq(s).pos)] else []
    ensures Explained(s, why, cmds) && NoLarvaTrain(cmds) && Follows(why, When(DenGate(s), DenSlot))
  {
    cmds, why := [], [];
    var hq := ClosestTo(s.Townhalls(), s.startLocation);
    if |ReadyOnes(s.UnitsOf(Lair))| > 0 {
      if !(|s.UnitsOf(HydraliskDen)| > 0 || s.Pending(HydraliskDen) > 0) {
        if HydraliskDen in s.affordable {
          var c := BuildNear(HydraliskDen, hq.pos);
          BatchSnoc(s, why, cmds, DenBuild, c);
          cmds, why := [c], [DenBuild];
        }
      }
    }
  }

  /** bot/main.py:102-107: an extractor on the geyser nearest to a random drone,
      while there are fewer than two extractors per townhall beyond the first and
      none is pending. Drawing the drone raises with no drone; `closest_to`
      raises with no geyser. */
  method ExtractorOrder(s: Snapshot) returns (cmds: seq<Command>, fault: Option<Fault>, ghost why: seq<Rule>)
    ensures fault.Some? <==> BuildFault(s)
    ensures fault == Some(NoWorker) <==> ExtractorGate(s) && |s.Workers()| == 0
    ensures fault == Some(NoGeyser) <==> ExtractorGate(s) && |s.Workers()| > 0 && |s.geysers| == 0
    ensures |cmds| <= 1
    ensures |cmds| == 1 <==> ExtractorGate(s) && !BuildFault(s)
    ensures |cmds| == 1 ==>
      exists d :: d in s.Workers() && cmds[0] == BuildOnGeyser(d.tag, ClosestTo(s.geysers, d.pos).tag)
    ensures Explained(s, why, cmds) && NoLarvaTrain(cmds)
    ensures Follows(why, When(ExtractorGate(s) && !BuildFault(s), ExtractorSlot))
  {
    cmds, fault, why := [], None, [];
    if |s.UnitsOf(Extractor)| < |s.Townhalls()| * 2 - 2 && s.Pending(Extractor) == 0 {
      if Extractor in s.affordable {
        var workers := s.Workers();
        if |workers| == 0 {
          fault := Some(NoWorker);
          return;
        }
        assert workers[0] in workers;
        var drone :| drone in workers;
        if |s.geysers| == 0 {
          fault := Some(NoGeyser);
          return;
        }
        var target := ClosestTo(s.geysers, drone.pos);
        cmds, why := [BuildOnGeyser(drone.tag, target.tag)], [ExtractorBuild(drone)];
        ExtractorExplained(s, drone);
      }
    }
  }

  /** The one extractor order is explained by the extractor rule. */
  lemma ExtractorExplained(s: Snapshot, d: Unit)
    requires ExtractorGate(s) && d in s.Workers() && |s.geysers| > 0
    ensures Explained(s, [ExtractorBuild(d)], [BuildOnGeyser(d.tag, ClosestTo(s.geysers, d.pos).tag)])
    ensures NoLarvaTrain([BuildOnGeyser(d.tag, ClosestTo(s.geysers, d.pos).tag)])
    ensures Follows([ExtractorBuild(d)], [ExtractorSlot])
  {
    var c := BuildOnGeyser(d.tag, ClosestTo(s.geysers, d.pos).tag);
    assert ExtractorFires(s, d, c);
    ExplainedSingle(s, ExtractorBuild(d), c);
    assert !ConsumesLarva(c);
  }

  /** The building orders together complete the building rules. */
  lemma BuildParts(s: Snapshot, pool: seq<Command>, expand: seq<Command>, den: seq<Command>, extractor: seq<Command>)
    requires |s.Townhalls()| > 0
    requires pool == if PoolGate(s) then [BuildNear(SpawningPool, Hq(s).pos)] else []
    requires expand == if ShouldExpand(s) then [ExpandNow] else []
    requires den == if DenGate(s) then [BuildNear(HydraliskDen, Hq(s).pos)] else []
    requires |extractor| <= 1
    requires |extractor| == 1 <==> ExtractorGate(s) && !BuildFault(s)
    requires |extractor| == 1 ==>
      exists d :: d in s.Workers() && extractor[0] == BuildOnGeyser(d.tag, ClosestTo(s.geysers, d.pos).tag)
    ensures BuildDone(s, pool + expand + den + extractor)
  {
    var all := pool + expand + den + extractor;
    assert forall c :: c in pool || c in expand || c in den || c in extractor ==> c in all;
    if |extractor| == 1 {
      assert extractor[0] in extractor;
    }
  }

  /** The first `i` extractors that need staff have been sent a worker. */
  ghost predicate StaffSoFar(s: Snapshot, i: nat, cmds: seq<Command>, why: seq<Rule>) {
    i <= |s.UnitsOf(Extractor)| &&
    (forall j :: 0 <= j < i && NeedsStaff(s, s.UnitsOf(Extractor)[j]) ==> GathersAt(cmds, s.UnitsOf(Extractor)[j].tag)) &&
    Explained(s, why, cmds) && NoLarvaTrain(cmds) && Follows(why, StaffPlanOf(s, s.UnitsOf(Extractor)[..i]))
  }

  lemma GathersAppend(a: seq<Command>, b: seq<Command>)
    ensures forall r :: GathersAt(a, r) || GathersAt(b, r) ==> GathersAt(a + b, r)
  {
    forall r | GathersAt(a, r) || GathersAt(b, r)
      ensures GathersAt(a + b, r)
    {
      var c :| (c in a || c in b) && c.Gather? && c.resource == r;
      assert c in a + b;
    }
  }

  lemma StaffGathers(s: Snapshot, i: nat, cmds: seq<Command>, more: seq<Command>)
    requires i < |s.UnitsOf(Extractor)|
    requires forall j :: 0 <= j < i && NeedsStaff(s, s.UnitsOf(Extractor)[j]) ==> GathersAt(cmds, s.UnitsOf(Extractor)[j].tag)
    requires NeedsStaff(s, s.UnitsOf(Extractor)[i]) ==> GathersAt(more, s.UnitsOf(Extractor)[i].tag)
    ensures forall j :: 0 <= j < i + 1 && NeedsStaff(s, s.UnitsOf(Extractor)[j]) ==> GathersAt(cmds + more, s.UnitsOf(Extractor)[j].tag)
  {
    GathersAppend(cmds, more);
  }

  lemma StaffFollows(s: Snapshot, i: nat, why: seq<Rule>, w: seq<Rule>)
    requires i < |s.UnitsOf(Extractor)|
    requires Follows(why, StaffPlanOf(s, s.UnitsOf(Extractor)[..i]))
    requires Follows(w, When(NeedsStaff(s, s.UnitsOf(Extractor)[i]), StaffSlot(s.UnitsOf(Extractor)[i])))
    ensures Follows(why + w, StaffPlanOf(s, s.UnitsOf(Extractor)[..i + 1]))
  {
    var ex := s.UnitsOf(Extractor);
    assert ex[..i + 1][..i] == ex[..i];
    FollowsAppend(why, StaffPlanOf(s, ex[..i]), w, When(NeedsStaff(s, ex[i]), StaffSlot(ex[i])));
  }

  /** Handling extractor `i` with `more` extends the staffing progress. */
  lemma StaffAdvance(s: Snapshot, i: nat, cmds: seq<Command>, why: seq<Rule>, more: seq<Command>, w: seq<Rule>)
    requires StaffSoFar(s, i, cmds, why) && i < |s.UnitsOf(Extractor)|
    requires NeedsStaff(s, s.UnitsOf(Extractor)[i]) ==> GathersAt(more, s.UnitsOf(Extractor)[i].tag)
    requires Explained(s, w, more) && NoLarvaTrain(more)
    requires Follows(w, When(NeedsStaff(s, s.UnitsOf(Extractor)[i]), StaffSlot(s.UnitsOf(Extractor)[i])))
    ensures StaffSoFar(s, i + 1, cmds + more, why + w)
  {
    StaffGathers(s, i, cmds, more);
    StaffFollows(s, i, why, w);
    ExplainedAppend(s, why, cmds, w, more);
    NoLarvaAppend(cmds, more);
  }

  lemma StaffEnds(s: Snapshot, cmds: seq<Command>, why: seq<Rule>)
    requires StaffSoFar(s, |s.UnitsOf(Extractor)|, cmds, why)
    ensures StaffDone(s, cmds)
  {
    var ex := s.UnitsOf(Extractor);
    forall a | a in ex && NeedsStaff(s, a)
      ensures GathersAt(cmds, a.tag)
    {
      var j :| 0 <= j < |ex| && ex[j] == a;
    }
  }

  /** bot/main.py:113: a random worker within 20 of extractor `a` is sent to it. */
  method StaffOne(s: Snapshot, a: Unit) returns (cmds: seq<Command>, ghost why: seq<Rule>)
    requires a in s.UnitsOf(Extractor) && Undersaturated(a)
    ensures |cmds| <= 1 && (|cmds| == 1 <==> NeedsStaff(s, a))
    ensures NeedsStaff(s, a) ==> GathersAt(cmds, a.tag)
    ensures Explained(s, why, cmds) && NoLarvaTrain(cmds) && Follows(why, When(NeedsStaff(s, a), StaffSlot(a)))
  {
    cmds, why := [], [];
    var w := CloserThanUnits(s.Workers(), 20, a.pos);
    if |w| > 0 {
      assert w[0] in w;
      var x :| x in w;
      var c := Gather(x.tag, a.tag);
      BatchSnoc(s, why, cmds, ExtractorStaff(a, x), c);
      cmds, why := [c], [ExtractorStaff(a, x)];
      assert c in cmds;
    }
  }

  /** bot/main.py:109-113: every extractor short of harvesters gets a worker
      from within 20 of it, when there is one. */
  method StaffExtractors(s: Snapshot) returns (cmds: seq<Command>, ghost why: seq<Rule>)
    ensures Explained(s, why, cmds) && NoLarvaTrain(cmds)
    ensures StaffDone(s, cmds) && Follows(why, StaffPlan(s))
  {
    cmds, why := [], [];
    var ex := s.UnitsOf(Extractor);
    for i := 0 to |ex|
      invariant StaffSoFar(s, i, cmds, why)
    {
      var a := ex[i];
      var more: seq<Command> := [];
      ghost var w: seq<Rule> := [];
      if a.assignedHarvesters < a.idealHarvesters {
        assert a in ex;
        more, w := StaffOne(s, a);
      }
      StaffAdvance(s, i, cmds, why, more, w);
      cmds, why := cmds + more, why + w;
    }
    StaffEnds(s, cmds, why);
    assert ex[..|ex|] == ex;
  }

  /** The idle-drone loop has sent the first `i` idle drones to their nearest
      mineral field, in order. */
  ghost predicate IdleSoFar(s: Snapshot, i: nat, cmds: seq<Command>, why: seq<Rule>) {
    i <= |IdleOnes(s.Workers())| && |cmds| == i &&
    (i > 0 ==> |s.mineralFields| > 0) &&
    (forall j :: 0 <= j < i ==>
      |s.mineralFields| > 0 &&
      cmds[j] == Gather(IdleOnes(s.Workers())[j].tag, ClosestTo(s.mineralFields, IdleOnes(s.Workers())[j].pos).tag)) &&
    Explained(s, why, cmds) && NoLarvaTrain(cmds) &&
    (forall j :: 0 <= j < i ==> SlotOf(why[j]) == GatherSlot(IdleOnes(s.Workers())[j]))
  }

  /** Sending the next idle drone extends the loop's progress. */
  lemma IdleAdvance(s: Snapshot, i: nat, cmds: seq<Command>, why: seq<Rule>)
    requires IdleSoFar(s, i, cmds, why) && i < |IdleOnes(s.Workers())| && |s.mineralFields| > 0
    ensures IdleSoFar(s, i + 1,
      cmds + [Gather(IdleOnes(s.Workers())[i].tag, ClosestTo(s.mineralFields, IdleOnes(s.Workers())[i].pos).tag)],
      why + [IdleDroneGather(IdleOnes(s.Workers())[i])])
  {
    var idle := IdleOnes(s.Workers());
    var c, r := Gather(idle[i].tag, ClosestTo(s.mineralFields, idle[i].pos).tag), IdleDroneGather(idle[i]);
    assert idle[i] in idle;
    BatchSnoc(s, why, cmds, r, c);
    forall j | 0 <= j < i + 1
      ensures (cmds + [c])[j] == Gather(idle[j].tag, ClosestTo(s.mineralFields, idle[j].pos).tag)
      ensures SlotOf((why + [r])[j]) == GatherSlot(idle[j])
    {
      if j < i {
        assert (cmds + [c])[j] == cmds[j] && (why + [r])[j] == why[j];
      }
    }
  }

  /** bot/main.py:115-118: every idle drone gathers from the mineral field
      nearest to it; `closest_to` raises at the first idle drone when the map
      has no mineral field. */
  method SendIdleDrones(s: Snapshot) returns (cmds: seq<Command>, fault: Option<Fault>, ghost why: seq<Rule>)
    ensures fault.Some? <==> IdleFault(s)
    ensures fault.Some? ==> fault == Some(NoMineralField) && cmds == []
    ensures fault == None ==> |cmds| == |IdleOnes(s.Workers())|
    ensures fault == None ==> forall j :: 0 <= j < |cmds| ==>
      |s.mineralFields| > 0 &&
      cmds[j] == Gather(IdleOnes(s.Workers())[j].tag, ClosestTo(s.mineralFields, IdleOnes(s.Workers())[j].pos).tag)
    ensures Explained(s, why, cmds) && NoLarvaTrain(cmds)
    ensures fault == None ==> Follows(why, IdlePlan(s))
  {
    cmds, fault, why := [], None, [];
    var idle := IdleOnes(s.Workers());
    for i := 0 to |idle|
      invariant IdleSoFar(s, i, cmds, why)
    {
      var d := idle[i];
      if |s.mineralFields| == 0 {
        fault := Some(NoMineralField);
        return;
      }
      var mf := ClosestTo(s.mineralFields, d.pos);
      IdleAdvance(s, i, cmds, why);
      cmds, why := cmds + [Gather(d.tag, mf.tag)], why + [IdleDroneGather(d)];
    }
  }

  /** Gather orders for every idle drone complete the idle-drone rule. */
  lemma IdleParts(s: Snapshot, cmds: seq<Command>)
    requires |cmds| == |IdleOnes(s.Workers())|
    requires forall j :: 0 <= j < |cmds| ==>
      |s.mineralFields| > 0 && cmds[j] == Gather(IdleOnes(s.Workers())[j].tag, ClosestTo(s.mineralFields, IdleOnes(s.Workers())[j].pos).tag)
    ensures IdleDone(s, cmds)
  {
    var idle := IdleOnes(s.Workers());
    forall d | d in idle
      ensures |s.mineralFields| > 0 && Gather(d.tag, ClosestTo(s.mineralFields, d.pos).tag) in cmds
    {
      var j :| 0 <= j < |idle| && idle[j] == d;
      assert cmds[j] in cmds;
    }
  }

  /** A batch that spends no larva has its larva command, trivially, last. */
  lemma NoLarvaLast(cmds: seq<Command>)
    requires NoLarvaTrain(cmds)
    ensures LarvaLast(cmds) && LastLarvaProduct(cmds) == None
  {
    if |cmds| > 0 {
      assert !ConsumesLarva(cmds[|cmds| - 1]);
    }
  }

  /** bot/main.py:120-123: fewer than 20 zerglings and 500 more minerals than
      vespene: a random larva becomes a zergling. */
  method ZerglingOrder(s: Snapshot) returns (cmds: seq<Command>, ghost why: seq<Rule>)
    ensures |cmds| <= 1 && (|cmds| == 1 <==> ZerglingGate(s))
    ensures |cmds| == 1 ==> cmds[0].Train? && cmds[0].product == Zergling
    ensures Explained(s, why, cmds) && Follows(why, ZerglingPlan(s))
  {
    cmds, why := [], [];
    if |s.UnitsOf(Zergling)| < 20 && s.minerals - s.vespene > 500 {
      if |s.Larvae()| > 0 && Zergling in s.affordable {
        var c;
        ghost var r;
        c, r := TrainFromLarva(s, Zergling);
        ExplainedSingle(s, r, c);
        cmds, why := [c], [r];
      }
    }
  }

  /** bot/main.py:109-123: staffing, idle drones and zerglings. */
  method FinalStages(s: Snapshot) returns (cmds: seq<Command>, fault: Option<Fault>, ghost why: seq<Rule>)
    ensures fault.Some? <==> IdleFault(s)
    ensures fault.Some? ==> fault == Some(NoMineralField)
    ensures LarvaLast(cmds)
    ensures LastLarvaProduct(cmds) == if !IdleFault(s) && ZerglingGate(s) then Some(Zergling) else None
    ensures Explained(s, why, cmds)
    ensures StaffDone(s, cmds)
    ensures !IdleFault(s) ==> IdleDone(s, cmds)
    ensures Follows(why, FinalPlan(s))
  {
    var staff, idle;
    ghost var w1, w2;
    staff, w1 := StaffExtractors(s);
    idle, fault, w2 := SendIdleDrones(s);
    ExplainedAppend(s, w1, staff, w2, idle);
    NoLarvaAppend(staff, idle);
    StaffKept(s, staff, idle);
    cmds, why := staff + idle, w1 + w2;
    if fault.Some? {
      assert w2 == [] && why == w1;
      NoLarvaLast(cmds);
      return;
    }
    FollowsAppend(w1, StaffPlan(s), w2, IdlePlan(s));
    IdleParts(s, idle);
    IdleKept(s, staff, idle);
    var zerg;
    ghost var w3;
    zerg, w3 := ZerglingOrder(s);
    ZerglingLast(s, cmds, zerg);
    FollowsAppend(why, StaffPlan(s) + IdlePlan(s), w3, ZerglingPlan(s));
    ExplainedAppend(s, why, cmds, w3, zerg);
    cmds, why := cmds + zerg, why + w3;
  }

  /** The zergling order closes the batch and keeps what the batch did. */
  lemma ZerglingLast(s: Snapshot, cmds: seq<Command>, zerg: seq<Command>)
    requires NoLarvaTrain(cmds) && StaffDone(s, cmds) && IdleDone(s, cmds)
    requires |zerg| <= 1 && (|zerg| == 1 <==> ZerglingGate(s))
    requires |zerg| == 1 ==> zerg[0].Train? && zerg[0].product == Zergling
    ensures LarvaLast(cmds + zerg)
    ensures LastLarvaProduct(cmds + zerg) == if ZerglingGate(s) then Some(Zergling) else None
    ensures StaffDone(s, cmds + zerg) && IdleDone(s, cmds + zerg)
  {
    if |zerg| == 1 {
      assert zerg == [zerg[0]];
      LarvaLastSnoc(cmds, zerg[0]);
    } else {
      assert cmds + zerg == cmds;
      NoLarvaLast(cmds);
    }
    StaffKept(s, cmds, zerg);
    IdleKept(s, cmds, zerg);
  }

  /** bot/main.py:90-107: the building rules. */
  method BuildOrders(s: Snapshot) returns (cmds: seq<Command>, fault: Option<Fault>, ghost why: seq<Rule>)
    requires |s.Townhalls()| > 0
    ensures fault.Some? <==> BuildFault(s)
    ensures fault == Some(NoWorker) <==> ExtractorGate(s) && |s.Workers()| == 0
    ensures fault == Some(NoGeyser) <==> ExtractorGate(s) && |s.Workers()| > 0 && |s.geysers| == 0
    ensures Explained(s, why, cmds) && NoLarvaTrain(cmds)
    ensures BuildDone(s, cmds) && Follows(why, BuildPlan(s))
  {
    var pool, expand, den, extractor;
    ghost var w1, w2, w3, w4;
    pool, w1 := PoolOrder(s);
    expand, w2 := ExpandOrder(s);
    den, w3 := DenOrder(s);
    extractor, fault, w4 := ExtractorOrder(s);
    BuildParts(s, pool, expand, den, extractor);
    ExplainedAppend(s, w1, pool, w2, expand);
    ExplainedAppend(s, w1 + w2, pool + expand, w3, den);
    ExplainedAppend(s, w1 + w2 + w3, pool + expand + den, w4, extractor);
    NoLarvaAppend(pool, expand);
    NoLarvaAppend(pool + expand, den);
    NoLarvaAppend(pool + expand + den, extractor);
    FollowsAppend(w1, When(PoolGate(s), PoolSlot), w2, When(ShouldExpand(s), ExpandSlot));
    FollowsAppend(w1 + w2, When(PoolGate(s), PoolSlot) + When(ShouldExpand(s), ExpandSlot), w3, When(DenGate(s), DenSlot));
    FollowsAppend(w1 + w2 + w3, When(PoolGate(s), PoolSlot) + When(ShouldExpand(s), ExpandSlot) + When(DenGate(s), DenSlot),
                  w4, When(ExtractorGate(s) && !BuildFault(s), ExtractorSlot));
    cmds, why := pool + expand + den + extractor, w1 + w2 + w3 + w4;
  }

  /** The final stages after the building rules keep what those did, and
      their larva command stays last. */
  lemma LateJoin(s: Snapshot, build: seq<Command>, fin: seq<Command>)
    requires |s.Townhalls()| > 0
    requires NoLarvaTrain(build) && BuildDone(s, build) && LarvaLast(fin)
    requires StaffDone(s, fin)
    ensures LarvaLast(build + fin)
    ensures LastLarvaProduct(build + fin) == LastLarvaProduct(fin)
    ensures BuildDone(s, build + fin) && StaffDone(s, build + fin)
    ensures IdleDone(s, fin) ==> IdleDone(s, build + fin)
  {
    LarvaLastAfter(build, fin);
    if |fin| == 0 {
      assert LastLarvaProduct(fin) == None;
    }
    BuildKept(s, build, fin);
    StaffKept(s, build, fin);
    if IdleDone(s, fin) {
      IdleKept(s, build, fin);
    }
  }

  /** bot/main.py:90-123: building, staffing, idle drones and zerglings. */
  method LateStages(s: Snapshot) returns (cmds: seq<Command>, fault: Option<Fault>, ghost why: seq<Rule>)
    requires |s.Townhalls()| > 0
    ensures fault == FaultOf(OutcomeAfterHydralisk(s))
    ensures LarvaLast(cmds) && LastLarvaProduct(cmds) == LarvaOf(OutcomeAfterHydralisk(s))
    ensures Explained(s, why, cmds)
    ensures BuildDone(s, cmds)
    ensures !BuildFault(s) ==> StaffDone(s, cmds)
    ensures !BuildFault(s) && !IdleFault(s) ==> IdleDone(s, cmds)
    ensures Follows(why, AfterHydraliskPlan(s))
  {
    var build;
    ghost var w1;
    build, fault, w1 := BuildOrders(s);
    if fault.Some? {
      NoLarvaLast(build);
      cmds, why := build, w1;
      return;
    }
    var fin;
    ghost var w2;
    fin, fault, w2 := FinalStages(s);
    LateJoin(s, build, fin);
    FollowsAppend(w1, BuildPlan(s), w2, FinalPlan(s));
    ExplainedAppend(s, w1, build, w2, fin);
    cmds, why := build + fin, w1 + w2;
  }

  /** bot/main.py:72-88: the tech rules, closed by a hydralisk when a den is
      ready, a hydralisk affordable and a larva there. */
  method TechStage(s: Snapshot) returns (cmds: seq<Command>, trained: bool, ghost why: seq<Rule>)
    requires |s.Townhalls()| > 0
    ensures trained <==> HydraliskGate(s)
    ensures trained ==> LarvaLast(cmds) && LastLarvaProduct(cmds) == Some(Hydralisk)
    ensures !trained ==> NoLarvaTrain(cmds)
    ensures Explained(s, why, cmds)
    ensures TechDone(s, cmds)
    ensures Follows(why, if trained then TechPlan(s) + [TrainSlot(Hydralisk)] else TechPlan(s))
  {
    var pool, den;
    ghost var w1, w2;
    pool, w1 := PoolTech(s);
    den, w2 := DenTech(s);
    TechParts(s, pool, den);
    TechJoin(s, pool, den, w1, w2);
    cmds, trained, why := pool + den, false, w1 + w2;
    if |ReadyOnes(s.UnitsOf(HydraliskDen))| > 0 && Hydralisk in s.affordable && |s.Larvae()| > 0 {
      var c;
      ghost var r;
      c, r := TrainFromLarva(s, Hydralisk);
      HydraliskCloses(s, cmds, why, c, r);
      cmds, trained, why := cmds + [c], true, why + [r];
    }
  }

  /** The hydralisk closes the tech rules' batch. */
  lemma HydraliskCloses(s: Snapshot, cmds: seq<Command>, why: seq<Rule>, c: Command, r: Rule)
    requires |s.Townhalls()| > 0
    requires Explained(s, why, cmds) && NoLarvaTrain(cmds) && TechDone(s, cmds) && Follows(why, TechPlan(s))
    requires Explains(s, r, c) && c.Train? && c.product == Hydralisk && SlotOf(r) == TrainSlot(Hydralisk)
    ensures Explained(s, why + [r], cmds + [c]) && TechDone(s, cmds + [c])
    ensures LarvaLast(cmds + [c]) && LastLarvaProduct(cmds + [c]) == Some(Hydralisk)
    ensures Follows(why + [r], TechPlan(s) + [TrainSlot(Hydralisk)])
  {
    LarvaTrainLast(s, why, cmds, r, c);
    TechKept(s, cmds, [c]);
    FollowsAppend(why, TechPlan(s), [r], [TrainSlot(Hydralisk)]);
  }

  /** A larva command closing an explained batch that spends none. */
  lemma LarvaTrainLast(s: Snapshot, why: seq<Rule>, cmds: seq<Command>, r: Rule, c: Command)
    requires Explained(s, why, cmds) && NoLarvaTrain(cmds)
    requires Explains(s, r, c) && c.Train? && c.product in LarvaProducts
    ensures Explained(s, why + [r], cmds + [c])
    ensures LarvaLast(cmds + [c]) && LastLarvaProduct(cmds + [c]) == Some(c.product)
  {
    ExplainedSingle(s, r, c);
    ExplainedAppend(s, why, cmds, [r], [c]);
    LarvaLastSnoc(cmds, c);
  }

  /** The later stages after the tech rules keep what those did. */
  lemma MidJoin(s: Snapshot, tech: seq<Command>, late: seq<Command>)
    requires |s.Townhalls()| > 0
    requires NoLarvaTrain(tech) && TechDone(s, tech) && LarvaLast(late)
    ensures LarvaLast(tech + late) && LastLarvaProduct(tech + late) == LastLarvaProduct(late)
    ensures TechDone(s, tech + late)
    ensures BuildDone(s, late) ==> BuildDone(s, tech + late)
    ensures StaffDone(s, late) ==> StaffDone(s, tech + late)
    ensures IdleDone(s, late) ==> IdleDone(s, tech + late)
  {
    LarvaLastAfter(tech, late);
    if |late| == 0 {
      assert LastLarvaProduct(late) == None;
    }
    TechKept(s, tech, late);
    if BuildDone(s, late) {
      BuildKept(s, tech, late);
    }
    if StaffDone(s, late) {
      StaffKept(s, tech, late);
    }
    if IdleDone(s, late) {
      IdleKept(s, tech, late);
    }
  }

  /** bot/main.py:66-123: everything after the army rule. An overlord, when
      supply runs short, ends the tick at once. */
  method MidStages(s: Snapshot) returns (cmds: seq<Command>, fault: Option<Fault>, ghost why: seq<Rule>)
    requires |s.Townhalls()| > 0
    ensures fault == FaultOf(OutcomeAfterArmy(s))
    ensures LarvaLast(cmds) && LastLarvaProduct(cmds) == LarvaOf(OutcomeAfterArmy(s))
    ensures Explained(s, why, cmds)
    ensures !OverlordGate(s) ==> TechDone(s, cmds)
    ensures !OverlordGate(s) && !HydraliskGate(s) ==> BuildDone(s, cmds)
    ensures !OverlordGate(s) && !HydraliskGate(s) && !BuildFault(s) ==> StaffDone(s, cmds)
    ensures !OverlordGate(s) && !HydraliskGate(s) && !BuildFault(s) && !IdleFault(s) ==> IdleDone(s, cmds)
    ensures Follows(why, AfterArmyPlan(s))
  {
    fault := None;
    if SupplyHeadroom(s) < 2 {
      if Overlord in s.affordable && |s.Larvae()| > 0 {
        var c;
        ghost var r;
        c, r := TrainFromLarva(s, Overlord);
        LarvaTrainLast(s, [], [], r, c);
        FollowsOne(r, TrainSlot(Overlord));
        cmds, why := [c], [r];
        return;
      }
    }
    var tech, trained;
    ghost var w1;
    tech, trained, w1 := TechStage(s);
    if trained {
      cmds, why := tech, w1;
      return;
    }
    var late;
    ghost var w2;
    late, fault, w2 := LateStages(s);
    MidJoin(s, tech, late);
    FollowsAppend(w1, TechPlan(s), w2, AfterHydraliskPlan(s));
    ExplainedAppend(s, w1, tech, w2, late);
    cmds, why := tech + late, w1 + w2;
  }

  lemma UpkeepAllKept(s: Snapshot, a: seq<Command>, b: seq<Command>)
    requires UpkeepAll(s, a)
    ensures UpkeepAll(s, a + b)
  {
    forall t | t in ReadyTownhalls(s)
      ensures UpkeepDone(s, t, a + b)
    {
      UpkeepKept(s, t, a, b);
    }
  }

  /** The stages after the townhall loop and the army rule keep what those did. */
  lemma TownJoin(s: Snapshot, early: seq<Command>, mid: seq<Command>)
    requires |s.Townhalls()| > 0
    requires NoLarvaTrain(early) && UpkeepAll(s, early) && ArmyDone(s, early) && LarvaLast(mid)
    ensures LarvaLast(early + mid) && LastLarvaProduct(early + mid) == LastLarvaProduct(mid)
    ensures UpkeepAll(s, early + mid) && ArmyDone(s, early + mid)
    ensures TechDone(s, mid) ==> TechDone(s, early + mid)
    ensures BuildDone(s, mid) ==> BuildDone(s, early + mid)
    ensures StaffDone(s, mid) ==> StaffDone(s, early + mid)
    ensures IdleDone(s, mid) ==> IdleDone(s, early + mid)
  {
    LarvaLastAfter(early, mid);
    if |mid| == 0 {
      assert LastLarvaProduct(mid) == None;
    }
    UpkeepAllKept(s, early, mid);
    ArmyKept(s, early, mid);
    if TechDone(s, mid) {
      TechKept(s, early, mid);
    }
    if BuildDone(s, mid) {
      BuildKept(s, early, mid);
    }
    if StaffDone(s, mid) {
      StaffKept(s, early, mid);
    }
    if IdleDone(s, mid) {
      IdleKept(s, early, mid);
    }
  }

  /** The townhall loop and the army rule: upkeep and army orders together. */
  lemma EarlyJoin(s: Snapshot, pass: seq<Command>, army: seq<Command>)
    requires |s.Townhalls()| > 0
    requires NoLarvaTrain(pass) && UpkeepAll(s, pass) && NoLarvaTrain(army) && ArmyDone(s, army)
    ensures NoLarvaTrain(pass + army) && UpkeepAll(s, pass + army) && ArmyDone(s, pass + army)
  {
    NoLarvaAppend(pass, army);
    UpkeepAllKept(s, pass, army);
    ArmyKept(s, pass, army);
  }

  /** bot/main.py:29-123: a tick with at least one townhall. */
  method TownStep(s: Snapshot) returns (cmds: seq<Command>, fault: Option<Fault>, ghost why: seq<Rule>)
    requires |s.Townhalls()| > 0
    ensures fault == FaultOf(TickOutcome(s))
    ensures LarvaLast(cmds) && LastLarvaProduct(cmds) == LarvaOf(TickOutcome(s))
    ensures Explained(s, why, cmds)
    ensures PassCompletes(s) ==> UpkeepAll(s, cmds) && ArmyDone(s, cmds)
    ensures OverlordSkipped(s) ==> TechDone(s, cmds)
    ensures HydraliskSkipped(s) ==> BuildDone(s, cmds)
    ensures BuildsSucceed(s) ==> StaffDone(s, cmds)
    ensures GatheringSucceeds(s) ==> IdleDone(s, cmds)
    ensures !PassFault(s) ==> UpkeepsDone(s, FirstDrone(s), cmds)
    ensures Follows(why, TownPlan(s))
  {
    var pass, trained;
    ghost var w1;
    pass, fault, trained, w1 := TownhallPass(s);
    if fault.Some? {
      NoLarvaLast(pass);
      cmds, why := pass, w1;
      return;
    }
    if trained {
      cmds, why := pass, w1;
      return;
    }
    var army, mid;
    ghost var w2, w3;
    army, w2 := ArmyOrders(s);
    EarlyJoin(s, pass, army);
    ExplainedAppend(s, w1, pass, w2, army);
    mid, fault, w3 := MidStages(s);
    TownJoin(s, pass + army, mid);
    UpkeepsKept(s, FirstDrone(s), pass, army);
    UpkeepsKept(s, FirstDrone(s), pass + army, mid);
    FollowsAppend(w1, PassPlan(s), w2, ArmyPlan(s));
    FollowsAppend(w1 + w2, PassPlan(s) + ArmyPlan(s), w3, AfterArmyPlan(s));
    ExplainedAppend(s, w1 + w2, pass + army, w3, mid);
    cmds, why := pass + army + mid, w1 + w2 + w3;
  }

  /** bot/main.py:20-123, one game step. The tick issues `cmds` in order and
      ends as `TickOutcome` says: raising `fault`, spending at most one larva
      with its last command, every command issued by a rule whose gate holds,
      and every rule it gets to applied in full. */
  method OnStep(s: Snapshot) returns (cmds: seq<Command>, fault: Option<Fault>, ghost why: seq<Rule>)
    ensures fault == FaultOf(TickOutcome(s))
    ensures LarvaLast(cmds) && LastLarvaProduct(cmds) == LarvaOf(TickOutcome(s))
    ensures LarvaTrainCount(cmds) <= 1
    ensures Explained(s, why, cmds)
    ensures |s.Townhalls()| == 0 ==>
      |cmds| == |LastStand(s)| &&
      forall i :: 0 <= i < |cmds| ==> cmds[i] == Attack(LastStand(s)[i].tag, s.enemyStart)
    ensures PassCompletes(s) ==> UpkeepAll(s, cmds) && ArmyDone(s, cmds)
    ensures OverlordSkipped(s) ==> TechDone(s, cmds)
    ensures HydraliskSkipped(s) ==> BuildDone(s, cmds)
    ensures BuildsSucceed(s) ==> StaffDone(s, cmds)
    ensures GatheringSucceeds(s) ==> IdleDone(s, cmds)
    ensures |s.Townhalls()| > 0 && !PassFault(s) ==> UpkeepsDone(s, FirstDrone(s), cmds)
    ensures Follows(why, Plan(s))
  {
    if |s.Townhalls()| == 0 {
      cmds, why := AttackWithEverything(s);
      fault := None;
      LastStandSpendsNoLarva(s, cmds);
      LarvaLastCount(cmds);
      return;
    }
    cmds, fault, why := TownStep(s);
    LarvaLastCount(cmds);
  }

  /** Attack orders spend no larva. */
  lemma LastStandSpendsNoLarva(s: Snapshot, cmds: seq<Command>)
    requires |cmds| == |LastStand(s)|
    requires forall i :: 0 <= i < |cmds| ==> cmds[i] == Attack(LastStand(s)[i].tag, s.enemyStart)
    ensures LarvaLast(cmds) && LastLarvaProduct(cmds) == None
  {
    if |cmds| > 0 {
      assert !ConsumesLarva(cmds[|cmds| - 1]);
    }
  }
}

