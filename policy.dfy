/** What a tick of `on_step` (bot/main.py:20-123) must do, stated over the
    snapshot: the gate of every rule, the rule that ends the tick, the rule
    behind each command, and what each rule, once reached, has issued. */
module MyBotPolicy {
  import opened Sc2
  import opened MyBotHelpers

  // ---------------------------------------------------------------------------
  // The gates of on_step's rules
  // ---------------------------------------------------------------------------

  /** `hq`: the townhall closest to the start location. */
  function Hq(s: Snapshot): Unit
    requires |s.Townhalls()| > 0
  {
    ClosestTo(s.Townhalls(), s.startLocation)
  }

  /** `far_h`: the townhall furthest from the start location. */
  function FarHatch(s: Snapshot): Unit
    requires |s.Townhalls()| > 0
  {
    FurthestTo(s.Townhalls(), s.startLocation)
  }

  predicate DroneGate(s: Snapshot) {
    |UndersaturatedTownhalls(s)| > 0 && Drone in s.affordable && |s.Larvae()| > 0
  }

  /** Townhall `t` turns a larva into a drone in the townhall loop (bot/main.py:34-36). */
  predicate DroneHere(s: Snapshot, t: Unit) {
    Undersaturated(t) && Drone in s.affordable && |s.Larvae()| > 0
  }

  /** Eight supply per overlord, counting those in production, against the supply in use. */
  function SupplyHeadroom(s: Snapshot): int {
    (|s.UnitsOf(Overlord)| + s.Pending(Overlord)) * 8 - s.supplyUsed
  }

  predicate OverlordGate(s: Snapshot) {
    SupplyHeadroom(s) < 2 && Overlord in s.affordable && |s.Larvae()| > 0
  }

  predicate HydraliskGate(s: Snapshot) {
    |ReadyOnes(s.UnitsOf(HydraliskDen))| > 0 && Hydralisk in s.affordable && |s.Larvae()| > 0
  }

  predicate ZerglingGate(s: Snapshot) {
    |s.UnitsOf(Zergling)| < 20 && s.minerals - s.vespene > 500 &&
    |s.Larvae()| > 0 && Zergling in s.affordable
  }

  /** The gate under which a larva is turned into a unit of type `k`. */
  predicate LarvaGate(s: Snapshot, k: UnitType) {
    match k
    case Drone => DroneGate(s)
    case Overlord => OverlordGate(s)
    case Hydralisk => HydraliskGate(s)
    case Zergling => ZerglingGate(s)
    case _ => false
  }

  predicate QueenGate(s: Snapshot, t: Unit) {
    |ReadyOnes(s.UnitsOf(SpawningPool))| > 0 && t.isReady && t.isIdle &&
    |CloserThanUnits(s.UnitsOf(Queen), 10, t.pos)| == 0 && Queen in s.affordable
  }

  function IdleQueensNear(s: Snapshot, t: Unit): seq<Unit> {
    CloserThanUnits(IdleOnes(s.UnitsOf(Queen)), 10, t.pos)
  }

  predicate InjectGate(s: Snapshot, t: Unit) {
    |IdleQueensNear(s, t)| > 0 && IdleQueensNear(s, t)[0].injectAvailable
  }

  /** The structure that researches an upgrade: the first ready spawning pool
      or hydralisk den. */
  function ResearchKind(up: Upgrade): UnitType {
    if up == ZerglingMovementSpeed then SpawningPool else HydraliskDen
  }

  predicate ResearchGate(s: Snapshot, up: Upgrade) {
    |ReadyOnes(s.UnitsOf(ResearchKind(up)))| > 0 &&
    up !in s.upgrades && up in s.affordableUpgrades
  }

  function Researcher(s: Snapshot, up: Upgrade): Tag
    requires |ReadyOnes(s.UnitsOf(ResearchKind(up)))| > 0
  {
    ReadyOnes(s.UnitsOf(ResearchKind(up)))[0].tag
  }

  predicate LairGate(s: Snapshot)
    requires |s.Townhalls()| > 0
  {
    |ReadyOnes(s.UnitsOf(SpawningPool))| > 0 && |s.UnitsOf(Lair)| == 0 &&
    Hq(s).isIdle && Lair in s.affordable
  }

  predicate PoolGate(s: Snapshot) {
    |s.UnitsOf(SpawningPool)| == 0 && s.Pending(SpawningPool) == 0 && SpawningPool in s.affordable
  }

  predicate DenGate(s: Snapshot) {
    |ReadyOnes(s.UnitsOf(Lair))| > 0 &&
    |s.UnitsOf(HydraliskDen)| == 0 && s.Pending(HydraliskDen) == 0 && HydraliskDen in s.affordable
  }

  predicate ExtractorGate(s: Snapshot) {
    |s.UnitsOf(Extractor)| < |s.Townhalls()| * 2 - 2 &&
    s.Pending(Extractor) == 0 && Extractor in s.affordable
  }

  /** With a single townhall the extractor rule never fires. */
  lemma NoExtractorBeforeSecondBase(s: Snapshot)
    requires |s.Townhalls()| <= 1
    ensures !ExtractorGate(s)
  {
  }

  /** An extractor ordered under the gate keeps extractors, built and pending,
      at most two per townhall beyond the first. */
  lemma ExtractorOrderKeepsRatio(s: Snapshot)
    requires ExtractorGate(s)
    ensures |s.UnitsOf(Extractor)| + s.Pending(Extractor) + 1 <= 2 * (|s.Townhalls()| - 1)
  {
  }

  /** Drones, queens and then the forces fight when no townhall is left, in the
      order of the source's union. */
  function LastStand(s: Snapshot): seq<Unit> {
    s.Workers() + s.UnitsOf(Queen) + s.Forces()
  }

  // ---------------------------------------------------------------------------
  // How a tick ends
  // ---------------------------------------------------------------------------

  /** The townhall loop raises: some townhall is undersaturated, the map has no
      mineral field, and the first ready townhall does not train a drone first
      (`need_worker_mineral` runs at every townhall that does not). */
  predicate PassFault(s: Snapshot) {
    |UndersaturatedTownhalls(s)| > 0 && |s.mineralFields| == 0 &&
    !(DroneGate(s) && Undersaturated(ReadyTownhalls(s)[0]))
  }

  /** The townhall loop (bot/main.py:31-56) runs to its end. */
  predicate PassCompletes(s: Snapshot) {
    |s.Townhalls()| > 0 && !PassFault(s) && !DroneGate(s)
  }

  /** The tick gets past the overlord rule (bot/main.py:67-70). */
  predicate OverlordSkipped(s: Snapshot) {
    PassCompletes(s) && !OverlordGate(s)
  }

  /** The tick gets past the hydralisk rule (bot/main.py:86-88). */
  predicate HydraliskSkipped(s: Snapshot) {
    OverlordSkipped(s) && !HydraliskGate(s)
  }

  /** The extractor rule fires with no worker or no geyser to build on, and raises. */
  predicate BuildFault(s: Snapshot) {
    ExtractorGate(s) && (|s.Workers()| == 0 || |s.geysers| == 0)
  }

  /** The tick gets past the extractor rule (bot/main.py:102-107). */
  predicate BuildsSucceed(s: Snapshot) {
    HydraliskSkipped(s) && !BuildFault(s)
  }

  /** An idle drone exists but no mineral field: the idle-drone loop raises. */
  predicate IdleFault(s: Snapshot) {
    |IdleOnes(s.Workers())| > 0 && |s.mineralFields| == 0
  }

  /** The tick gets past the idle-drone loop (bot/main.py:115-118). */
  predicate GatheringSucceeds(s: Snapshot) {
    BuildsSucceed(s) && !IdleFault(s)
  }

  /** How a tick ends: every attack order with no townhall left, a larva spent on
      a unit of type `k` by a rule that returns, an assertion of the library
      raised, or the rule list run to its end. */
  datatype Outcome =
    | AllAttack
    | LarvaSpent(k: UnitType)
    | Raised(f: Fault)
    | RanThrough

  /** The rule that ends the tick, in the source's priority order. */
  function TickOutcome(s: Snapshot): Outcome {
    if |s.Townhalls()| == 0 then AllAttack
    else if PassFault(s) then Raised(NoMineralField)
    else if DroneGate(s) then LarvaSpent(Drone)
    else OutcomeAfterArmy(s)
  }

  /** How a tick that reaches the overlord rule (bot/main.py:67) ends. */
  function OutcomeAfterArmy(s: Snapshot): Outcome {
    if OverlordGate(s) then LarvaSpent(Overlord)
    else if HydraliskGate(s) then LarvaSpent(Hydralisk)
    else OutcomeAfterHydralisk(s)
  }

  /** How a tick that gets past the hydralisk rule (bot/main.py:90) ends. */
  function OutcomeAfterHydralisk(s: Snapshot): Outcome {
    if ExtractorGate(s) && |s.Workers()| == 0 then Raised(NoWorker)
    else if ExtractorGate(s) && |s.geysers| == 0 then Raised(NoGeyser)
    else if IdleFault(s) then Raised(NoMineralField)
    else if ZerglingGate(s) then LarvaSpent(Zergling)
    else RanThrough
  }

  function FaultOf(o: Outcome): Option<Fault> {
    if o.Raised? then Some(o.f) else None
  }

  function LarvaOf(o: Outcome): Option<UnitType> {
    if o.LarvaSpent? then Some(o.k) else None
  }

  /** A tick raises only for a map without mineral fields, a player without
      drones or a map without geysers, and spends a larva only under that
      unit's gate. */
  lemma TickOutcomeCauses(s: Snapshot)
    ensures TickOutcome(s) == Raised(NoMineralField) ==> |s.mineralFields| == 0
    ensures TickOutcome(s) == Raised(NoWorker) ==> ExtractorGate(s) && |s.Workers()| == 0
    ensures TickOutcome(s) == Raised(NoGeyser) ==> ExtractorGate(s) && |s.geysers| == 0
    ensures TickOutcome(s).LarvaSpent? ==>
      TickOutcome(s).k in LarvaProducts && LarvaGate(s, TickOutcome(s).k) && |s.Larvae()| > 0
  {
  }

  /** With a mineral field on the map, a drone is trained whenever the drone
      gate holds and a townhall stands. */
  lemma DroneFirst(s: Snapshot)
    requires |s.Townhalls()| > 0 && DroneGate(s) && |s.mineralFields| > 0
    ensures TickOutcome(s) == LarvaSpent(Drone)
  {
  }

  // ---------------------------------------------------------------------------
  // Why each command is issued
  // ---------------------------------------------------------------------------

  /** The rule of on_step that issued a command, with the units it chose. */
  datatype Rule =
    | LastStandAttack(x: Unit)
    | ArmyAttack(f: Unit, pick: nat)
    | ArmyMove(f: Unit)
    | LarvaTrain(l: Unit, k: UnitType)
    | SpareWorker(t: Unit, w: Unit, u: Unit)
    | QueenTrain(t: Unit)
    | InjectLarva(t: Unit)
    | UpgradeResearch(up: Upgrade)
    | LairMorph
    | PoolBuild
    | Expansion
    | DenBuild
    | ExtractorBuild(d: Unit)
    | ExtractorStaff(a: Unit, w: Unit)
    | IdleDroneGather(d: Unit)

  /** Rule `r` fires on snapshot `s` and issues command `c`. */
  predicate Explains(s: Snapshot, r: Rule, c: Command) {
    match r
    case LastStandAttack(x) => LastStandFires(s, x, c)
    case ArmyAttack(f, pick) => ArmyAttackFires(s, f, pick, c)
    case ArmyMove(f) => ArmyMoveFires(s, f, c)
    case LarvaTrain(l, k) => LarvaTrainFires(s, l, k, c)
    case SpareWorker(t, w, u) => SpareWorkerFires(s, t, w, u, c)
    case QueenTrain(t) => QueenTrainFires(s, t, c)
    case InjectLarva(t) => InjectFires(s, t, c)
    case UpgradeResearch(up) => ResearchFires(s, up, c)
    case LairMorph => LairFires(s, c)
    case PoolBuild => PoolFires(s, c)
    case Expansion => ExpansionFires(s, c)
    case DenBuild => DenFires(s, c)
    case ExtractorBuild(d) => ExtractorFires(s, d, c)
    case ExtractorStaff(a, w) => StaffFires(s, a, w, c)
    case IdleDroneGather(d) => IdleGatherFires(s, d, c)
  }

  predicate LastStandFires(s: Snapshot, x: Unit, c: Command) {
    |s.Townhalls()| == 0 && x in LastStand(s) && c == Attack(x.tag, s.enemyStart)
  }

  predicate ArmyAttackFires(s: Snapshot, f: Unit, pick: nat, c: Command) {
    |s.Townhalls()| > 0 && s.supplyUsed > 190 && f in IdleOnes(s.Forces()) &&
    TargetPick(s, pick) && c == Attack(f.tag, SelectTarget(s, pick))
  }

  predicate ArmyMoveFires(s: Snapshot, f: Unit, c: Command) {
    |s.Townhalls()| > 0 && s.supplyUsed <= 190 && f in FurtherThanUnits(s.Forces(), 10, FarHatch(s).pos) &&
    c.Move? && c.unit == f.tag && c.target in RingOfFive(FarHatch(s).pos)
  }

  predicate LarvaTrainFires(s: Snapshot, l: Unit, k: UnitType, c: Command) {
    l in s.Larvae() && LarvaGate(s, k) && c == Train(l.tag, k)
  }

  predicate SpareWorkerFires(s: Snapshot, t: Unit, w: Unit, u: Unit, c: Command) {
    t in ReadyTownhalls(s) && Oversaturated(t) && w in CloserThanUnits(s.Workers(), 10, t.pos) &&
    u in UndersaturatedTownhalls(s) && |s.mineralFields| > 0 &&
    c == Gather(w.tag, ClosestTo(s.mineralFields, u.pos).tag)
  }

  predicate QueenTrainFires(s: Snapshot, t: Unit, c: Command) {
    t in ReadyTownhalls(s) && QueenGate(s, t) && c == Train(t.tag, Queen)
  }

  predicate InjectFires(s: Snapshot, t: Unit, c: Command) {
    t in ReadyTownhalls(s) && InjectGate(s, t) && c == Inject(IdleQueensNear(s, t)[0].tag, t.tag)
  }

  predicate ResearchFires(s: Snapshot, up: Upgrade, c: Command) {
    ResearchGate(s, up) && c == Research(Researcher(s, up), up)
  }

  predicate LairFires(s: Snapshot, c: Command) {
    |s.Townhalls()| > 0 && LairGate(s) && c == Morph(Hq(s).tag, Lair)
  }

  predicate PoolFires(s: Snapshot, c: Command) {
    |s.Townhalls()| > 0 && PoolGate(s) && c == BuildNear(SpawningPool, Hq(s).pos)
  }

  predicate ExpansionFires(s: Snapshot, c: Command) {
    ShouldExpand(s) && c == ExpandNow
  }

  predicate DenFires(s: Snapshot, c: Command) {
    |s.Townhalls()| > 0 && DenGate(s) && c == BuildNear(HydraliskDen, Hq(s).pos)
  }

  predicate ExtractorFires(s: Snapshot, d: Unit, c: Command) {
    ExtractorGate(s) && d in s.Workers() && |s.geysers| > 0 &&
    c == BuildOnGeyser(d.tag, ClosestTo(s.geysers, d.pos).tag)
  }

  predicate StaffFires(s: Snapshot, a: Unit, w: Unit, c: Command) {
    a in s.UnitsOf(Extractor) && Undersaturated(a) && w in CloserThanUnits(s.Workers(), 20, a.pos) &&
    c == Gather(w.tag, a.tag)
  }

  predicate IdleGatherFires(s: Snapshot, d: Unit, c: Command) {
    d in IdleOnes(s.Workers()) && |s.mineralFields| > 0 &&
    c == Gather(d.tag, ClosestTo(s.mineralFields, d.pos).tag)
  }

  /** Each command of the batch is issued by the rule at the same index of `why`. */
  ghost predicate Explained(s: Snapshot, why: seq<Rule>, cmds: seq<Command>) {
    |why| == |cmds| && forall i :: 0 <= i < |cmds| ==> Explains(s, why[i], cmds[i])
  }

  lemma ExplainedAppend(s: Snapshot, w1: seq<Rule>, c1: seq<Command>, w2: seq<Rule>, c2: seq<Command>)
    requires Explained(s, w1, c1) && Explained(s, w2, c2)
    ensures Explained(s, w1 + w2, c1 + c2)
  {
    forall i | 0 <= i < |c1 + c2|
      ensures Explains(s, (w1 + w2)[i], (c1 + c2)[i])
    {
      if i >= |c1| {
        assert (w1 + w2)[i] == w2[i - |c1|];
        assert (c1 + c2)[i] == c2[i - |c1|];
      }
    }
  }

  lemma ExplainedSingle(s: Snapshot, r: Rule, c: Command)
    requires Explains(s, r, c)
    ensures Explained(s, [r], [c])
  {
  }

  /** In an explained batch every larva is spent under its unit's gate, by a
      larva that exists. */
  lemma ExplainedLarvaTrainsAreGated(s: Snapshot, why: seq<Rule>, cmds: seq<Command>)
    requires Explained(s, why, cmds)
    ensures forall c :: c in cmds && ConsumesLarva(c) ==>
      LarvaGate(s, c.product) && exists l :: l in s.Larvae() && l.tag == c.producer
  {
    forall c | c in cmds && ConsumesLarva(c)
      ensures LarvaGate(s, c.product) && exists l :: l in s.Larvae() && l.tag == c.producer
    {
      var i :| 0 <= i < |cmds| && cmds[i] == c;
      assert Explains(s, why[i], c);
      assert why[i].LarvaTrain?;
      assert why[i].l in s.Larvae();
    }
  }

  /** The overlord and zergling thresholds of bot/main.py:67 and 120. */
  lemma ExplainedLarvaThresholds(s: Snapshot, why: seq<Rule>, cmds: seq<Command>)
    requires Explained(s, why, cmds)
    ensures forall c :: c in cmds && c.Train? && c.product == Overlord ==>
      SupplyHeadroom(s) < 2 && Overlord in s.affordable && |s.Larvae()| > 0
    ensures forall c :: c in cmds && c.Train? && c.product == Zergling ==>
      |s.UnitsOf(Zergling)| < 20 && s.minerals - s.vespene > 500 && Zergling in s.affordable
  {
    ExplainedLarvaTrainsAreGated(s, why, cmds);
  }

  /** An extractor is ordered only under its gate, an expansion only when
      `should_expand` holds. */
  lemma ExplainedBuildsAreGated(s: Snapshot, why: seq<Rule>, cmds: seq<Command>)
    requires Explained(s, why, cmds)
    ensures forall c :: c in cmds && c.BuildOnGeyser? ==>
      |s.UnitsOf(Extractor)| < |s.Townhalls()| * 2 - 2 && s.Pending(Extractor) == 0 && Extractor in s.affordable
    ensures ExpandNow in cmds ==> ShouldExpand(s)
  {
    forall c | c in cmds && (c.BuildOnGeyser? || c == ExpandNow)
      ensures c.BuildOnGeyser? ==> ExtractorGate(s)
      ensures c == ExpandNow ==> ShouldExpand(s)
    {
      var i :| 0 <= i < |cmds| && cmds[i] == c;
      assert Explains(s, why[i], c);
    }
  }

  /** With a townhall standing, attacks happen only near full supply and aim at
      a target `select_target` may answer; moves happen only below it and lead to
      distance 5 from the furthest townhall. */
  lemma ExplainedArmyOrders(s: Snapshot, why: seq<Rule>, cmds: seq<Command>)
    requires Explained(s, why, cmds) && |s.Townhalls()| > 0
    ensures forall c :: c in cmds && c.Attack? ==> s.supplyUsed > 190 && IsTargetCandidate(s, c.target)
    ensures forall c :: c in cmds && c.Move? ==> s.supplyUsed <= 190 && DistSq(c.target, FarHatch(s).pos) == 25
  {
    RingOfFiveOnCircle(FarHatch(s).pos);
    forall c | c in cmds && (c.Attack? || c.Move?)
      ensures c.Attack? ==> s.supplyUsed > 190 && IsTargetCandidate(s, c.target)
      ensures c.Move? ==> s.supplyUsed <= 190 && DistSq(c.target, FarHatch(s).pos) == 25
    {
      var i :| 0 <= i < |cmds| && cmds[i] == c;
      assert Explains(s, why[i], c);
      if c.Attack? {
        SelectTargetIsCandidate(s, why[i].pick);
      }
    }
  }

  // ---------------------------------------------------------------------------
  // Larvae
  // ---------------------------------------------------------------------------

  predicate ConsumesLarva(c: Command) {
    c.Train? && c.product in LarvaProducts
  }

  predicate NoLarvaTrain(cmds: seq<Command>) {
    forall i :: 0 <= i < |cmds| ==> !ConsumesLarva(cmds[i])
  }

  lemma NoLarvaAppend(a: seq<Command>, b: seq<Command>)
    requires NoLarvaTrain(a) && NoLarvaTrain(b)
    ensures NoLarvaTrain(a + b)
  {
    forall i | 0 <= i < |a + b|
      ensures !ConsumesLarva((a + b)[i])
    {
      if i >= |a| {
        assert (a + b)[i] == b[i - |a|];
      }
    }
  }

  function LarvaTrainCount(cmds: seq<Command>): nat {
    if cmds == [] then 0
    else (if ConsumesLarva(cmds[0]) then 1 else 0) + LarvaTrainCount(cmds[1..])
  }

  /** A larva is spent, if at all, by the last command of the batch. */
  predicate LarvaLast(cmds: seq<Command>) {
    forall i :: 0 <= i < |cmds| - 1 ==> !ConsumesLarva(cmds[i])
  }

  /** The unit type the last command turns a larva into, if it spends one. */
  function LastLarvaProduct(cmds: seq<Command>): Option<UnitType> {
    if |cmds| > 0 && ConsumesLarva(cmds[|cmds| - 1]) then Some(cmds[|cmds| - 1].product) else None
  }

  /** A batch whose only larva command, if any, is its last one spends at most
      one larva, and none when its last command spends none. */
  lemma {:induction false} LarvaLastCount(cmds: seq<Command>)
    requires LarvaLast(cmds)
    ensures LarvaTrainCount(cmds) == if LastLarvaProduct(cmds).Some? then 1 else 0
  {
    if cmds != [] {
      var rest := cmds[1..];
      if |cmds| == 1 {
        assert rest == [];
      } else {
        assert !ConsumesLarva(cmds[0]);
        assert rest[|rest| - 1] == cmds[|cmds| - 1];
        forall i | 0 <= i < |rest| - 1
          ensures !ConsumesLarva(rest[i])
        {
          assert rest[i] == cmds[i + 1];
        }
        LarvaLastCount(rest);
      }
    }
  }

  /** Appending a batch whose only larva command is last to one that spends none
      keeps the larva command last. */
  lemma LarvaLastAfter(a: seq<Command>, b: seq<Command>)
    requires NoLarvaTrain(a) && LarvaLast(b)
    ensures LarvaLast(a + b)
    ensures LastLarvaProduct(a + b) == if |b| > 0 then LastLarvaProduct(b) else None
  {
    forall i | 0 <= i < |a + b| - 1
      ensures !ConsumesLarva((a + b)[i])
    {
      if i >= |a| {
        assert (a + b)[i] == b[i - |a|];
      }
    }
    if |b| > 0 {
      assert (a + b)[|a + b| - 1] == b[|b| - 1];
    } else {
      assert a + b == a;
    }
  }

  /** A batch of commands that spend no larva, closed by one that may. */
  lemma LarvaLastSnoc(a: seq<Command>, c: Command)
    requires NoLarvaTrain(a)
    ensures LarvaLast(a + [c])
    ensures LastLarvaProduct(a + [c]) == if ConsumesLarva(c) then Some(c.product) else None
  {
    forall i | 0 <= i < |a + [c]| - 1
      ensures !ConsumesLarva((a + [c])[i])
    {
      assert (a + [c])[i] == a[i];
    }
  }

  // ---------------------------------------------------------------------------
  // What the rules guarantee to issue
  // ---------------------------------------------------------------------------

  /** A worker from near `t` sent to a mineral field `need_worker_mineral` may answer. */
  ghost predicate MovesSpareWorker(s: Snapshot, t: Unit, cmds: seq<Command>) {
    exists w, m :: w in CloserThanUnits(s.Workers(), 10, t.pos) && IsSpareWorkerMineral(s, m) &&
      Gather(w.tag, m.tag) in cmds
  }

  /** The spare-worker rule of the townhall loop fires for `t` (given a mineral field). */
  predicate SpareGate(s: Snapshot, t: Unit) {
    Oversaturated(t) && |CloserThanUnits(s.Workers(), 10, t.pos)| > 0 && |UndersaturatedTownhalls(s)| > 0
  }

  /** The spare-worker, queen and inject rules of the townhall loop have been applied to `t`. */
  ghost predicate UpkeepDone(s: Snapshot, t: Unit, cmds: seq<Command>) {
    (SpareGate(s, t) ==> MovesSpareWorker(s, t, cmds)) &&
    (QueenGate(s, t) ==> Train(t.tag, Queen) in cmds) &&
    (InjectGate(s, t) ==> Inject(IdleQueensNear(s, t)[0].tag, t.tag) in cmds)
  }

  /** An upkeep's commands stay in the batch when commands are added before or after. */
  lemma UpkeepKept(s: Snapshot, t: Unit, a: seq<Command>, b: seq<Command>)
    requires UpkeepDone(s, t, a) || UpkeepDone(s, t, b)
    ensures UpkeepDone(s, t, a + b)
  {
    if SpareGate(s, t) {
      var w, m :| w in CloserThanUnits(s.Workers(), 10, t.pos) && IsSpareWorkerMineral(s, m) &&
        (Gather(w.tag, m.tag) in a || Gather(w.tag, m.tag) in b);
      assert Gather(w.tag, m.tag) in a + b;
    }
  }

  ghost predicate UpkeepAll(s: Snapshot, cmds: seq<Command>) {
    forall t :: t in ReadyTownhalls(s) ==> UpkeepDone(s, t, cmds)
  }

  /** The first `n` ready townhalls got their upkeep. */
  ghost predicate UpkeepsDone(s: Snapshot, n: nat, cmds: seq<Command>) {
    n <= |ReadyTownhalls(s)| && forall j :: 0 <= j < n ==> UpkeepDone(s, ReadyTownhalls(s)[j], cmds)
  }

  /** Some command orders unit `u` to attack or to move. */
  predicate Ordered(cmds: seq<Command>, u: Tag) {
    exists c :: c in cmds && (c.Attack? || c.Move?) && c.unit == u
  }

  /** Near full supply every idle zergling and hydralisk has an order, otherwise
      every one more than 10 away from the furthest townhall. */
  ghost predicate ArmyDone(s: Snapshot, cmds: seq<Command>)
    requires |s.Townhalls()| > 0
  {
    (s.supplyUsed > 190 ==> forall f :: f in IdleOnes(s.Forces()) ==> Ordered(cmds, f.tag)) &&
    (s.supplyUsed <= 190 ==> forall f :: f in FurtherThanUnits(s.Forces(), 10, FarHatch(s).pos) ==> Ordered(cmds, f.tag))
  }

  /** The upgrades and the lair morph whose gates hold have been ordered. */
  ghost predicate TechDone(s: Snapshot, cmds: seq<Command>)
    requires |s.Townhalls()| > 0
  {
    (ResearchGate(s, ZerglingMovementSpeed) ==>
      Research(Researcher(s, ZerglingMovementSpeed), ZerglingMovementSpeed) in cmds) &&
    (ResearchGate(s, EvolveMuscularAugments) ==>
      Research(Researcher(s, EvolveMuscularAugments), EvolveMuscularAugments) in cmds) &&
    (ResearchGate(s, EvolveGroovedSpines) ==>
      Research(Researcher(s, EvolveGroovedSpines), EvolveGroovedSpines) in cmds) &&
    (LairGate(s) ==> Morph(Hq(s).tag, Lair) in cmds)
  }

  /** The spawning pool, expansion, hydralisk den and extractor whose gates hold
      have been ordered. */
  ghost predicate BuildDone(s: Snapshot, cmds: seq<Command>)
    requires |s.Townhalls()| > 0
  {
    (PoolGate(s) ==> BuildNear(SpawningPool, Hq(s).pos) in cmds) &&
    (ShouldExpand(s) ==> ExpandNow in cmds) &&
    (DenGate(s) ==> BuildNear(HydraliskDen, Hq(s).pos) in cmds) &&
    (ExtractorGate(s) && !BuildFault(s) ==>
      exists d :: d in s.Workers() && BuildOnGeyser(d.tag, ClosestTo(s.geysers, d.pos).tag) in cmds)
  }

  predicate GathersAt(cmds: seq<Command>, r: Tag) {
    exists c :: c in cmds && c.Gather? && c.resource == r
  }

  /** An extractor short of harvesters with a worker within 20 of it. */
  predicate NeedsStaff(s: Snapshot, a: Unit) {
    Undersaturated(a) && |CloserThanUnits(s.Workers(), 20, a.pos)| > 0
  }

  /** Every extractor short of harvesters that has a worker near it gets one. */
  ghost predicate StaffDone(s: Snapshot, cmds: seq<Command>) {
    forall a :: a in s.UnitsOf(Extractor) && NeedsStaff(s, a) ==> GathersAt(cmds, a.tag)
  }

  /** Every idle drone is sent to the mineral field nearest to it. */
  ghost predicate IdleDone(s: Snapshot, cmds: seq<Command>) {
    forall d :: d in IdleOnes(s.Workers()) ==>
      |s.mineralFields| > 0 && Gather(d.tag, ClosestTo(s.mineralFields, d.pos).tag) in cmds
  }

  lemma ArmyKept(s: Snapshot, a: seq<Command>, b: seq<Command>)
    requires |s.Townhalls()| > 0 && (ArmyDone(s, a) || ArmyDone(s, b))
    ensures ArmyDone(s, a + b)
  {
    forall u | Ordered(a, u) || Ordered(b, u)
      ensures Ordered(a + b, u)
    {
      var c :| (c in a || c in b) && (c.Attack? || c.Move?) && c.unit == u;
      assert c in a + b;
    }
  }

  lemma TechKept(s: Snapshot, a: seq<Command>, b: seq<Command>)
    requires |s.Townhalls()| > 0 && (TechDone(s, a) || TechDone(s, b))
    ensures TechDone(s, a + b)
  {
  }

  lemma BuildKept(s: Snapshot, a: seq<Command>, b: seq<Command>)
    requires |s.Townhalls()| > 0 && (BuildDone(s, a) || BuildDone(s, b))
    ensures BuildDone(s, a + b)
  {
    if ExtractorGate(s) && !BuildFault(s) {
      var d :| d in s.Workers() &&
        (BuildOnGeyser(d.tag, ClosestTo(s.geysers, d.pos).tag) in a ||
         BuildOnGeyser(d.tag, ClosestTo(s.geysers, d.pos).tag) in b);
      assert BuildOnGeyser(d.tag, ClosestTo(s.geysers, d.pos).tag) in a + b;
    }
  }

  lemma StaffKept(s: Snapshot, a: seq<Command>, b: seq<Command>)
    requires StaffDone(s, a) || StaffDone(s, b)
    ensures StaffDone(s, a + b)
  {
    forall r | GathersAt(a, r) || GathersAt(b, r)
      ensures GathersAt(a + b, r)
    {
      var c :| (c in a || c in b) && c.Gather? && c.resource == r;
      assert c in a + b;
    }
  }

  lemma IdleKept(s: Snapshot, a: seq<Command>, b: seq<Command>)
    requires IdleDone(s, a) || IdleDone(s, b)
    ensures IdleDone(s, a + b)
  {
  }
}
