/** The rules a tick of `on_step` (bot/main.py:20-123) fires, in the order it
    fires them: a reference definition of the whole batch, exact up to the
    random draws, with the facts it implies about that order. */
module MyBotPlan {
  import opened Sc2
  import opened MyBotHelpers
  import opened MyBotPolicy

  // ---------------------------------------------------------------------------
  // Slots: rule firings with the draws left out
  // ---------------------------------------------------------------------------

  /** A rule firing with its random draws left out: which rule fired and, for a
      rule applied unit by unit, for which unit. */
  datatype Slot =
    | LastStandSlot(x: Unit)
    | SpareSlot(t: Unit)
    | QueenSlot(t: Unit)
    | InjectSlot(t: Unit)
    | TrainSlot(k: UnitType)
    | AttackSlot(f: Unit)
    | MoveSlot(f: Unit)
    | ResearchSlot(up: Upgrade)
    | LairSlot
    | PoolSlot
    | ExpandSlot
    | DenSlot
    | ExtractorSlot
    | StaffSlot(a: Unit)
    | GatherSlot(d: Unit)

  function SlotOf(r: Rule): Slot {
    match r
    case LastStandAttack(x) => LastStandSlot(x)
    case ArmyAttack(f, _) => AttackSlot(f)
    case ArmyMove(f) => MoveSlot(f)
    case LarvaTrain(_, k) => TrainSlot(k)
    case SpareWorker(t, _, _) => SpareSlot(t)
    case QueenTrain(t) => QueenSlot(t)
    case InjectLarva(t) => InjectSlot(t)
    case UpgradeResearch(up) => ResearchSlot(up)
    case LairMorph => LairSlot
    case PoolBuild => PoolSlot
    case Expansion => ExpandSlot
    case DenBuild => DenSlot
    case ExtractorBuild(_) => ExtractorSlot
    case ExtractorStaff(a, _) => StaffSlot(a)
    case IdleDroneGather(d) => GatherSlot(d)
  }

  /** The rules behind a batch fire as `plan` lists them: one rule per slot,
      in the plan's order. */
  ghost predicate Follows(why: seq<Rule>, plan: seq<Slot>) {
    |why| == |plan| && forall i :: 0 <= i < |why| ==> SlotOf(why[i]) == plan[i]
  }

  lemma FollowsAppend(w1: seq<Rule>, p1: seq<Slot>, w2: seq<Rule>, p2: seq<Slot>)
    requires Follows(w1, p1) && Follows(w2, p2)
    ensures Follows(w1 + w2, p1 + p2)
  {
    forall i | 0 <= i < |w1 + w2|
      ensures SlotOf((w1 + w2)[i]) == (p1 + p2)[i]
    {
      if i >= |w1| {
        assert (w1 + w2)[i] == w2[i - |w1|];
        assert (p1 + p2)[i] == p2[i - |p1|];
      }
    }
  }

  lemma FollowsOne(r: Rule, x: Slot)
    requires SlotOf(r) == x
    ensures Follows([r], [x])
  {
  }

  function When(b: bool, x: Slot): seq<Slot> {
    if b then [x] else []
  }

  // ---------------------------------------------------------------------------
  // The plan of a tick
  // ---------------------------------------------------------------------------

  /** The first ready townhall, from index `i` on, where the townhall loop
      trains a drone; the number of ready townhalls when there is none. */
  function FirstDroneFrom(s: Snapshot, i: nat): (k: nat)
    requires i <= |ReadyTownhalls(s)|
    ensures i <= k <= |ReadyTownhalls(s)|
    ensures forall j :: i <= j < k ==> !DroneHere(s, ReadyTownhalls(s)[j])
    ensures k < |ReadyTownhalls(s)| ==> DroneHere(s, ReadyTownhalls(s)[k])
    decreases |ReadyTownhalls(s)| - i
  {
    if i == |ReadyTownhalls(s)| then i
    else if DroneHere(s, ReadyTownhalls(s)[i]) then i
    else FirstDroneFrom(s, i + 1)
  }

  function FirstDrone(s: Snapshot): nat {
    FirstDroneFrom(s, 0)
  }

  /** The loop trains a drone at some ready townhall exactly when the drone
      gate holds. */
  lemma FirstDroneGate(s: Snapshot)
    ensures FirstDrone(s) < |ReadyTownhalls(s)| <==> DroneGate(s)
  {
    var ready := ReadyTownhalls(s);
    var k := FirstDrone(s);
    if k < |ready| {
      assert ready[k] in ready;
      assert ready[k] in UndersaturatedTownhalls(s);
    }
    if DroneGate(s) {
      var under := UndersaturatedTownhalls(s);
      assert under[0] in under;
      var j :| 0 <= j < |ready| && ready[j] == under[0];
      assert DroneHere(s, ready[j]);
    }
  }

  /** The townhall at index `i` is the first where a drone is trained, or no
      townhall trains one when `i` is past the last. */
  lemma FirstDroneIs(s: Snapshot, i: nat)
    requires i <= |ReadyTownhalls(s)|
    requires forall j :: 0 <= j < i ==> !DroneHere(s, ReadyTownhalls(s)[j])
    requires i < |ReadyTownhalls(s)| ==> DroneHere(s, ReadyTownhalls(s)[i])
    ensures FirstDrone(s) == i
  {
  }

  /** The spare-worker, queen and inject orders of townhall `t` (bot/main.py:39-56). */
  function UpkeepPlan(s: Snapshot, t: Unit): seq<Slot> {
    When(SpareGate(s, t), SpareSlot(t)) + (When(QueenGate(s, t), QueenSlot(t)) + When(InjectGate(s, t), InjectSlot(t)))
  }

  /** The upkeep of the first `n` ready townhalls, townhall by townhall. */
  function UpkeepsPlan(s: Snapshot, n: nat): seq<Slot>
    requires n <= |ReadyTownhalls(s)|
  {
    if n == 0 then [] else UpkeepsPlan(s, n - 1) + UpkeepPlan(s, ReadyTownhalls(s)[n - 1])
  }

  /** The townhall loop (bot/main.py:31-56): nothing when it raises, which it
      can only do at the first ready townhall; otherwise the upkeep of every
      townhall before the first that trains a drone, then that drone. */
  function PassPlan(s: Snapshot): seq<Slot> {
    if PassFault(s) then []
    else if FirstDrone(s) < |ReadyTownhalls(s)| then UpkeepsPlan(s, FirstDrone(s)) + [TrainSlot(Drone)]
    else UpkeepsPlan(s, FirstDrone(s))
  }

  function LastStandPlan(s: Snapshot): seq<Slot> {
    seq(|LastStand(s)|, i requires 0 <= i < |LastStand(s)| => LastStandSlot(LastStand(s)[i]))
  }

  function AttackPlan(s: Snapshot): seq<Slot> {
    seq(|IdleOnes(s.Forces())|, i requires 0 <= i < |IdleOnes(s.Forces())| => AttackSlot(IdleOnes(s.Forces())[i]))
  }

  function MovePlan(s: Snapshot): seq<Slot>
    requires |s.Townhalls()| > 0
  {
    var away := FurtherThanUnits(s.Forces(), 10, FarHatch(s).pos);
    seq(|away|, i requires 0 <= i < |away| => MoveSlot(away[i]))
  }

  /** The army rule (bot/main.py:58-64): one order per force it concerns. */
  function ArmyPlan(s: Snapshot): seq<Slot>
    requires |s.Townhalls()| > 0
  {
    if s.supplyUsed > 190 then AttackPlan(s) else MovePlan(s)
  }

  /** The research and lair rules (bot/main.py:72-85), in the source's order. */
  function TechPlan(s: Snapshot): seq<Slot>
    requires |s.Townhalls()| > 0
  {
    (When(ResearchGate(s, ZerglingMovementSpeed), ResearchSlot(ZerglingMovementSpeed)) + When(LairGate(s), LairSlot)) +
    (When(ResearchGate(s, EvolveMuscularAugments), ResearchSlot(EvolveMuscularAugments)) +
     When(ResearchGate(s, EvolveGroovedSpines), ResearchSlot(EvolveGroovedSpines)))
  }

  /** The building rules (bot/main.py:90-107); the extractor is left out when
      its rule raises. */
  function BuildPlan(s: Snapshot): seq<Slot> {
    When(PoolGate(s), PoolSlot) + When(ShouldExpand(s), ExpandSlot) + When(DenGate(s), DenSlot) +
    When(ExtractorGate(s) && !BuildFault(s), ExtractorSlot)
  }

  /** One gather order per extractor of `es` that needs staff, in order. */
  function StaffPlanOf(s: Snapshot, es: seq<Unit>): seq<Slot> {
    if es == [] then []
    else StaffPlanOf(s, es[..|es| - 1]) + When(NeedsStaff(s, es[|es| - 1]), StaffSlot(es[|es| - 1]))
  }

  /** The extractor loop (bot/main.py:109-113). */
  function StaffPlan(s: Snapshot): seq<Slot> {
    StaffPlanOf(s, s.UnitsOf(Extractor))
  }

  /** The idle-drone loop (bot/main.py:115-118), when it does not raise. */
  function IdlePlan(s: Snapshot): seq<Slot> {
    seq(|IdleOnes(s.Workers())|, i requires 0 <= i < |IdleOnes(s.Workers())| => GatherSlot(IdleOnes(s.Workers())[i]))
  }

  function ZerglingPlan(s: Snapshot): seq<Slot> {
    When(ZerglingGate(s), TrainSlot(Zergling))
  }

  /** bot/main.py:109-123: the idle-drone loop raising ends the tick. */
  function FinalPlan(s: Snapshot): seq<Slot> {
    if IdleFault(s) then StaffPlan(s) else StaffPlan(s) + IdlePlan(s) + ZerglingPlan(s)
  }

  /** bot/main.py:90-123: the extractor rule raising ends the tick. */
  function AfterHydraliskPlan(s: Snapshot): seq<Slot> {
    if BuildFault(s) then BuildPlan(s) else BuildPlan(s) + FinalPlan(s)
  }

  /** bot/main.py:66-123: an overlord or a hydralisk ends the tick. */
  function AfterArmyPlan(s: Snapshot): seq<Slot>
    requires |s.Townhalls()| > 0
  {
    if OverlordGate(s) then [TrainSlot(Overlord)]
    else if HydraliskGate(s) then TechPlan(s) + [TrainSlot(Hydralisk)]
    else TechPlan(s) + AfterHydraliskPlan(s)
  }

  /** bot/main.py:29-123: the townhall loop raising or training a drone ends the tick. */
  function TownPlan(s: Snapshot): seq<Slot>
    requires |s.Townhalls()| > 0
  {
    if PassFault(s) || DroneGate(s) then PassPlan(s)
    else PassPlan(s) + ArmyPlan(s) + AfterArmyPlan(s)
  }

  /** The rules a tick fires, in order (bot/main.py:20-123). */
  function Plan(s: Snapshot): seq<Slot> {
    if |s.Townhalls()| == 0 then LastStandPlan(s) else TownPlan(s)
  }

  // ---------------------------------------------------------------------------
  // What the plan pins down
  // ---------------------------------------------------------------------------

  /** The slots whose command the snapshot fixes: every rule but those that
      draw a larva, a worker, a target or a point at random. */
  predicate Fixed(x: Slot) {
    x.LastStandSlot? || x.QueenSlot? || x.InjectSlot? || x.ResearchSlot? || x.LairSlot? ||
    x.PoolSlot? || x.ExpandSlot? || x.DenSlot? || x.GatherSlot?
  }

  /** Two batches whose rules follow the same plan have the same length and
      agree on every command the plan fixes: they can differ only where a rule
      draws at random. */
  lemma PlanFixesCommands(s: Snapshot, plan: seq<Slot>, why1: seq<Rule>, cmds1: seq<Command>,
                          why2: seq<Rule>, cmds2: seq<Command>)
    requires Explained(s, why1, cmds1) && Follows(why1, plan)
    requires Explained(s, why2, cmds2) && Follows(why2, plan)
    ensures |cmds1| == |cmds2|
    ensures forall i :: 0 <= i < |plan| && Fixed(plan[i]) ==> cmds1[i] == cmds2[i]
  {
    forall i | 0 <= i < |plan| && Fixed(plan[i])
      ensures cmds1[i] == cmds2[i]
    {
      assert Explains(s, why1[i], cmds1[i]);
      assert Explains(s, why2[i], cmds2[i]);
      assert SlotOf(why1[i]) == SlotOf(why2[i]);
    }
  }

  /** The line of bot/main.py that issues a slot's command. The townhall loop
      repeats its orders for every townhall, so they all count as the loop's
      line, 31. */
  function Stage(x: Slot): nat {
    match x
    case LastStandSlot(_) => 26
    case SpareSlot(_) => 31
    case QueenSlot(_) => 31
    case InjectSlot(_) => 31
    case TrainSlot(k) =>
      if k == Drone then 31 else if k == Overlord then 69 else if k == Hydralisk then 87 else 122
    case AttackSlot(_) => 60
    case MoveSlot(_) => 64
    case ResearchSlot(up) =>
      if up == ZerglingMovementSpeed then 75 else if up == EvolveMuscularAugments then 83 else 85
    case LairSlot => 78
    case PoolSlot => 92
    case ExpandSlot => 95
    case DenSlot => 100
    case ExtractorSlot => 107
    case StaffSlot(_) => 113
    case GatherSlot(_) => 118
  }

  /** The lines whose rule is applied once per unit of a collection: the
      last-stand attack, the townhall loop, the two army loops, the extractor
      loop and the idle-drone loop. */
  predicate LoopLine(k: nat) {
    k == 26 || k == 31 || k == 60 || k == 64 || k == 113 || k == 118
  }

  /** Every slot of `p` comes from a line in `lo..hi`, the lines never go back,
      and only a loop's line repeats. */
  predicate Staged(p: seq<Slot>, lo: nat, hi: nat) {
    (forall i :: 0 <= i < |p| ==> lo <= Stage(p[i]) <= hi) &&
    (forall i, j :: 0 <= i < j < |p| ==>
      Stage(p[i]) < Stage(p[j]) || (Stage(p[i]) == Stage(p[j]) && LoopLine(Stage(p[i]))))
  }

  /** Two staged plans, the second from strictly later lines, run one after the other. */
  lemma StagedJoin(a: seq<Slot>, b: seq<Slot>, lo: nat, mid: nat, mid': nat, hi: nat)
    requires lo <= mid < mid' <= hi && Staged(a, lo, mid) && Staged(b, mid', hi)
    ensures Staged(a + b, lo, hi)
  {
    var ab := a + b;
    forall i | 0 <= i < |ab|
      ensures lo <= Stage(ab[i]) <= hi
    {
      if i >= |a| {
        assert ab[i] == b[i - |a|];
      }
    }
    forall i, j | 0 <= i < j < |ab|
      ensures Stage(ab[i]) < Stage(ab[j]) || (Stage(ab[i]) == Stage(ab[j]) && LoopLine(Stage(ab[i])))
    {
      if j < |a| {
        assert ab[i] == a[i] && ab[j] == a[j];
      } else if i >= |a| {
        assert ab[i] == b[i - |a|] && ab[j] == b[j - |a|];
      } else {
        assert ab[i] == a[i] && ab[j] == b[j - |a|];
      }
    }
  }

  lemma StagedWiden(p: seq<Slot>, lo: nat, hi: nat, lo': nat, hi': nat)
    requires Staged(p, lo, hi) && lo' <= lo && hi <= hi'
    ensures Staged(p, lo', hi')
  {
  }

  lemma StagedWhen(b: bool, x: Slot)
    ensures Staged(When(b, x), Stage(x), Stage(x))
  {
  }

  /** Appending an optional slot from a strictly later line keeps a plan staged. */
  lemma StagedSnoc(p: seq<Slot>, b: bool, x: Slot, lo: nat, mid: nat)
    requires Staged(p, lo, mid) && lo <= mid < Stage(x)
    ensures Staged(p + When(b, x), lo, Stage(x))
  {
    StagedWhen(b, x);
    StagedJoin(p, When(b, x), lo, mid, Stage(x), Stage(x));
  }

  /** Every slot of `p` comes from line `k`. */
  ghost predicate Level(p: seq<Slot>, k: nat) {
    forall x :: x in p ==> Stage(x) == k
  }

  lemma LevelStaged(p: seq<Slot>, k: nat)
    requires Level(p, k) && LoopLine(k)
    ensures Staged(p, k, k)
  {
    forall i | 0 <= i < |p|
      ensures Stage(p[i]) == k
    {
      assert p[i] in p;
    }
  }

  lemma LevelJoin(a: seq<Slot>, b: seq<Slot>, k: nat)
    requires Level(a, k) && Level(b, k)
    ensures Level(a + b, k)
  {
  }

  lemma LevelWhen(b: bool, x: Slot)
    ensures Level(When(b, x), Stage(x))
  {
  }

  lemma LevelSnoc(p: seq<Slot>, b: bool, x: Slot, k: nat)
    requires Level(p, k) && Stage(x) == k
    ensures Level(p + When(b, x), k)
  {
    LevelWhen(b, x);
    LevelJoin(p, When(b, x), k);
  }

  /** The shape of one townhall's upkeep, with its gates left open. */
  lemma LevelUpkeep(b1: bool, b2: bool, b3: bool, t: Unit)
    ensures Level(When(b1, SpareSlot(t)) + (When(b2, QueenSlot(t)) + When(b3, InjectSlot(t))), 31)
  {
    LevelWhen(b1, SpareSlot(t));
    LevelWhen(b2, QueenSlot(t));
    LevelWhen(b3, InjectSlot(t));
    LevelJoin(When(b2, QueenSlot(t)), When(b3, InjectSlot(t)), 31);
    LevelJoin(When(b1, SpareSlot(t)), When(b2, QueenSlot(t)) + When(b3, InjectSlot(t)), 31);
  }

  lemma UpkeepLevel(s: Snapshot, t: Unit)
    ensures Level(UpkeepPlan(s, t), 31)
  {
    LevelUpkeep(SpareGate(s, t), QueenGate(s, t), InjectGate(s, t), t);
  }

  lemma UpkeepsLevelStep(s: Snapshot, n: nat)
    requires 0 < n <= |ReadyTownhalls(s)|
    requires Level(UpkeepsPlan(s, n - 1), 31)
    ensures Level(UpkeepsPlan(s, n), 31)
  {
    var t := ReadyTownhalls(s)[n - 1];
    UpkeepLevel(s, t);
    LevelJoin(UpkeepsPlan(s, n - 1), UpkeepPlan(s, t), 31);
  }

  lemma {:induction false} UpkeepsLevel(s: Snapshot, n: nat)
    requires n <= |ReadyTownhalls(s)|
    ensures Level(UpkeepsPlan(s, n), 31)
  {
    if n == 0 {
      assert UpkeepsPlan(s, n) == [];
    } else {
      UpkeepsLevel(s, n - 1);
      UpkeepsLevelStep(s, n);
    }
  }

  lemma UpkeepsStaged(s: Snapshot, n: nat)
    requires n <= |ReadyTownhalls(s)|
    ensures Staged(UpkeepsPlan(s, n), 31, 31)
  {
    UpkeepsLevel(s, n);
    LevelStaged(UpkeepsPlan(s, n), 31);
  }

  lemma PassStaged(s: Snapshot)
    ensures Staged(PassPlan(s), 31, 31)
  {
    if !PassFault(s) {
      UpkeepsLevel(s, FirstDrone(s));
      if FirstDrone(s) < |ReadyTownhalls(s)| {
        LevelWhen(true, TrainSlot(Drone));
        LevelJoin(UpkeepsPlan(s, FirstDrone(s)), [TrainSlot(Drone)], 31);
      }
      LevelStaged(PassPlan(s), 31);
    }
  }

  /** The shape of the research block, with its gates left open. */
  lemma StagedTechShape(b1: bool, b2: bool, b3: bool, b4: bool)
    ensures Staged((When(b1, ResearchSlot(ZerglingMovementSpeed)) + When(b2, LairSlot))
                   + (When(b3, ResearchSlot(EvolveMuscularAugments)) + When(b4, ResearchSlot(EvolveGroovedSpines))), 75, 85)
  {
    StagedPoolTech(b1, b2);
    StagedDenTech(b3, b4);
    StagedJoin(When(b1, ResearchSlot(ZerglingMovementSpeed)) + When(b2, LairSlot),
               When(b3, ResearchSlot(EvolveMuscularAugments)) + When(b4, ResearchSlot(EvolveGroovedSpines)),
               75, 78, 83, 85);
  }

  lemma StagedPoolTech(b1: bool, b2: bool)
    ensures Staged(When(b1, ResearchSlot(ZerglingMovementSpeed)) + When(b2, LairSlot), 75, 78)
  {
    StagedWhen(b1, ResearchSlot(ZerglingMovementSpeed));
    StagedSnoc(When(b1, ResearchSlot(ZerglingMovementSpeed)), b2, LairSlot, 75, 75);
  }

  lemma StagedDenTech(b3: bool, b4: bool)
    ensures Staged(When(b3, ResearchSlot(EvolveMuscularAugments)) + When(b4, ResearchSlot(EvolveGroovedSpines)), 83, 85)
  {
    StagedWhen(b3, ResearchSlot(EvolveMuscularAugments));
    StagedSnoc(When(b3, ResearchSlot(EvolveMuscularAugments)), b4, ResearchSlot(EvolveGroovedSpines), 83, 83);
  }

  lemma TechStaged(s: Snapshot)
    requires |s.Townhalls()| > 0
    ensures Staged(TechPlan(s), 75, 85)
  {
    StagedTechShape(ResearchGate(s, ZerglingMovementSpeed), LairGate(s),
                    ResearchGate(s, EvolveMuscularAugments), ResearchGate(s, EvolveGroovedSpines));
  }

  lemma StagedPoolExpand(b1: bool, b2: bool)
    ensures Staged(When(b1, PoolSlot) + When(b2, ExpandSlot), 92, 95)
  {
    StagedWhen(b1, PoolSlot);
    StagedSnoc(When(b1, PoolSlot), b2, ExpandSlot, 92, 92);
  }

  lemma StagedPoolToDen(b1: bool, b2: bool, b3: bool)
    ensures Staged(When(b1, PoolSlot) + When(b2, ExpandSlot) + When(b3, DenSlot), 92, 100)
  {
    StagedPoolExpand(b1, b2);
    StagedSnoc(When(b1, PoolSlot) + When(b2, ExpandSlot), b3, DenSlot, 92, 95);
  }

  /** The shape of the building block, with its gates left open. */
  lemma StagedBuildShape(b1: bool, b2: bool, b3: bool, b4: bool)
    ensures Staged(When(b1, PoolSlot) + When(b2, ExpandSlot) + When(b3, DenSlot) + When(b4, ExtractorSlot), 92, 107)
  {
    StagedPoolToDen(b1, b2, b3);
    StagedSnoc(When(b1, PoolSlot) + When(b2, ExpandSlot) + When(b3, DenSlot), b4, ExtractorSlot, 92, 100);
  }

  lemma BuildStaged(s: Snapshot)
    ensures Staged(BuildPlan(s), 92, 107)
  {
    StagedBuildShape(PoolGate(s), ShouldExpand(s), DenGate(s), ExtractorGate(s) && !BuildFault(s));
  }

  lemma StaffLevelStep(s: Snapshot, es: seq<Unit>)
    requires es != [] && Level(StaffPlanOf(s, es[..|es| - 1]), 113)
    ensures Level(StaffPlanOf(s, es), 113)
  {
    LevelSnoc(StaffPlanOf(s, es[..|es| - 1]), NeedsStaff(s, es[|es| - 1]), StaffSlot(es[|es| - 1]), 113);
  }

  lemma {:induction false} StaffLevel(s: Snapshot, es: seq<Unit>)
    ensures Level(StaffPlanOf(s, es), 113)
    decreases |es|
  {
    if es != [] {
      StaffLevel(s, es[..|es| - 1]);
      StaffLevelStep(s, es);
    }
  }

  lemma StaffStaged(s: Snapshot, es: seq<Unit>)
    ensures Staged(StaffPlanOf(s, es), 113, 113)
  {
    StaffLevel(s, es);
    LevelStaged(StaffPlanOf(s, es), 113);
  }

  lemma IdleStaged(s: Snapshot)
    ensures Staged(IdlePlan(s), 118, 118)
  {
  }

  lemma FinalStaged(s: Snapshot)
    ensures Staged(FinalPlan(s), 113, 122)
  {
    StaffStaged(s, s.UnitsOf(Extractor));
    if IdleFault(s) {
      StagedWiden(StaffPlan(s), 113, 113, 113, 122);
    } else {
      IdleStaged(s);
      StagedJoin(StaffPlan(s), IdlePlan(s), 113, 113, 118, 118);
      StagedSnoc(StaffPlan(s) + IdlePlan(s), ZerglingGate(s), TrainSlot(Zergling), 113, 118);
    }
  }

  lemma AfterHydraliskStaged(s: Snapshot)
    ensures Staged(AfterHydraliskPlan(s), 92, 122)
  {
    BuildStaged(s);
    if BuildFault(s) {
      StagedWiden(BuildPlan(s), 92, 107, 92, 122);
    } else {
      FinalStaged(s);
      StagedJoin(BuildPlan(s), FinalPlan(s), 92, 107, 113, 122);
    }
  }

  /** The shape of bot/main.py:66-123, with its gates and parts left open. */
  lemma StagedAfterArmyShape(o: bool, h: bool, tech: seq<Slot>, after: seq<Slot>)
    requires Staged(tech, 75, 85) && Staged(after, 92, 122)
    ensures Staged(if o then [TrainSlot(Overlord)] else if h then tech + [TrainSlot(Hydralisk)] else tech + after, 69, 122)
  {
    if o {
      StagedWhen(true, TrainSlot(Overlord));
      StagedWiden([TrainSlot(Overlord)], 69, 69, 69, 122);
    } else if h {
      StagedSnoc(tech, true, TrainSlot(Hydralisk), 75, 85);
      StagedWiden(tech + When(true, TrainSlot(Hydralisk)), 75, 87, 69, 122);
    } else {
      StagedJoin(tech, after, 75, 85, 92, 122);
      StagedWiden(tech + after, 75, 122, 69, 122);
    }
  }

  lemma AfterArmyStaged(s: Snapshot)
    requires |s.Townhalls()| > 0
    ensures Staged(AfterArmyPlan(s), 69, 122)
  {
    TechStaged(s);
    AfterHydraliskStaged(s);
    StagedAfterArmyShape(OverlordGate(s), HydraliskGate(s), TechPlan(s), AfterHydraliskPlan(s));
  }

  lemma ArmyStaged(s: Snapshot)
    requires |s.Townhalls()| > 0
    ensures Staged(ArmyPlan(s), 60, 64)
  {
  }

  lemma TownStaged(s: Snapshot)
    requires |s.Townhalls()| > 0
    ensures Staged(TownPlan(s), 31, 122)
  {
    PassStaged(s);
    if PassFault(s) || DroneGate(s) {
      StagedWiden(PassPlan(s), 31, 31, 31, 122);
    } else {
      ArmyStaged(s);
      AfterArmyStaged(s);
      StagedJoin(PassPlan(s), ArmyPlan(s), 31, 31, 60, 64);
      StagedJoin(PassPlan(s) + ArmyPlan(s), AfterArmyPlan(s), 31, 64, 69, 122);
    }
  }

  /** A tick fires its rules in the order of the source's lines: a command
      issued after another comes from the same line or a later one, and from
      the same line only when that line is a loop applying its rule unit by
      unit. So every rule outside a loop fires at most once per tick. */
  lemma PlanFollowsSourceOrder(s: Snapshot)
    ensures forall i, j :: 0 <= i < j < |Plan(s)| ==> Stage(Plan(s)[i]) <= Stage(Plan(s)[j])
    ensures forall i, j :: 0 <= i < j < |Plan(s)| && Stage(Plan(s)[i]) == Stage(Plan(s)[j]) ==>
      LoopLine(Stage(Plan(s)[i]))
    ensures forall i, j :: 0 <= i < j < |Plan(s)| && !LoopLine(Stage(Plan(s)[i])) ==> Plan(s)[i] != Plan(s)[j]
  {
    if |s.Townhalls()| == 0 {
      assert Staged(LastStandPlan(s), 26, 26);
    } else {
      TownStaged(s);
    }
  }
}
