/** The surface of the StarCraft II client library that the bot reads and writes:
    positions, units, the read-only per-tick world snapshot, the commands a tick
    may issue, and the `Units` collection queries the bot calls. */
module Sc2 {

  datatype Option<+T> = None | Some(value: T)

  datatype Result<+T, +E> = Ok(value: T) | Err(error: E)

  type Tag = nat

  /** A map position. The engine works with floating-point coordinates; the model
      keeps integer ones and compares squared distances, which orders points the
      same way as the engine's distances do. */
  datatype Point = Point(x: int, y: int)

  /** The square of `d`, built up by odd increments so that the solver never
      meets a product of two unknowns; `SqIsSquare` ties it to `d * d`. */
  function Sq(d: int): nat
    decreases if d < 0 then -d else d, if d < 0 then 1 else 0
  {
    if d == 0 then 0
    else if d < 0 then Sq(-d)
    else Sq(d - 1) + 2 * d - 1
  }

  lemma {:induction false} SqIsSquare(d: int)
    ensures Sq(d) == d * d
    decreases if d < 0 then -d else d, if d < 0 then 1 else 0
  {
    if d < 0 {
      SqIsSquare(-d);
    } else if d > 0 {
      SqIsSquare(d - 1);
    }
  }

  /** The squares the points of `RingOfFive` need. */
  lemma SmallSquares()
    ensures Sq(0) == 0 && Sq(3) == 9 && Sq(4) == 16 && Sq(5) == 25
    ensures Sq(-3) == 9 && Sq(-4) == 16 && Sq(-5) == 25
  {
  }

  function DistSq(a: Point, b: Point): nat {
    Sq(a.x - b.x) + Sq(a.y - b.y)
  }

  /** `closer_than(r, p)` keeps a unit whose distance to `p` is strictly below `r`. */
  predicate CloserThan(a: Point, b: Point, r: nat) {
    DistSq(a, b) < Sq(r)
  }

  /** `further_than(r, p)` keeps a unit whose distance to `p` is strictly above `r`. */
  predicate FurtherThan(a: Point, b: Point, r: nat) {
    DistSq(a, b) > Sq(r)
  }

  /** The integer points at distance exactly `r` = 5 from `c`: the stand-in for
      `random_on_distance(5)`, which draws a point on that circle. */
  function RingOfFive(c: Point): (ring: set<Point>)
    ensures Point(c.x + 5, c.y) in ring
  {
    { Point(c.x + 5, c.y), Point(c.x - 5, c.y), Point(c.x, c.y + 5), Point(c.x, c.y - 5),
      Point(c.x + 3, c.y + 4), Point(c.x + 3, c.y - 4), Point(c.x - 3, c.y + 4), Point(c.x - 3, c.y - 4),
      Point(c.x + 4, c.y + 3), Point(c.x + 4, c.y - 3), Point(c.x - 4, c.y + 3), Point(c.x - 4, c.y - 3) }
  }

  /** Every point of the ring lies at distance 5 from its centre. */
  lemma RingOfFiveOnCircle(c: Point)
    ensures forall p :: p in RingOfFive(c) ==> DistSq(p, c) == 25
  {
    SmallSquares();
  }

  datatype UnitType =
    | Larva | Drone | Overlord | Queen | Zergling | Hydralisk
    | Hatchery | Lair | Hive | SpawningPool | HydraliskDen | Extractor
    | MineralField | VespeneGeyser | Other

  datatype Upgrade = ZerglingMovementSpeed | EvolveMuscularAugments | EvolveGroovedSpines

  const TownhallKinds: set<UnitType> := {Hatchery, Lair, Hive}

  /** The unit types a larva turns into. */
  const LarvaProducts: set<UnitType> := {Drone, Overlord, Zergling, Hydralisk}

  /** One unit as the snapshot shows it. `isIdle` is "has no orders", which the
      library exposes both as `is_idle` and as `noqueue`; `injectAvailable` is the
      answer of the ability query for a queen. Mineral fields, geysers and enemy
      structures are units too; only their tag and position matter. */
  datatype Unit = Unit(
    tag: Tag,
    kind: UnitType,
    pos: Point,
    isReady: bool,
    isIdle: bool,
    isCollecting: bool,
    assignedHarvesters: int,
    idealHarvesters: int,
    injectAvailable: bool)

  /** A townhall or extractor with fewer assigned harvesters than it can use. */
  predicate Undersaturated(u: Unit) {
    u.assignedHarvesters < u.idealHarvesters
  }

  predicate Oversaturated(u: Unit) {
    u.assignedHarvesters > u.idealHarvesters
  }

  /** The filters of the `Units` collection the bot uses. */
  datatype Selector =
    | OfType(kind: UnitType)
    | OfTypes(kinds: set<UnitType>)
    | ReadySel
    | IdleSel
    | CollectingSel
    | CloserThanSel(r: nat, p: Point)
    | FurtherThanSel(r: nat, p: Point)
    | UndersaturatedSel

  predicate Keeps(sel: Selector, u: Unit) {
    match sel
    case OfType(k) => u.kind == k
    case OfTypes(ks) => u.kind in ks
    case ReadySel => u.isReady
    case IdleSel => u.isIdle
    case CollectingSel => u.isCollecting
    case CloserThanSel(r, p) => CloserThan(u.pos, p, r)
    case FurtherThanSel(r, p) => FurtherThan(u.pos, p, r)
    case UndersaturatedSel => Undersaturated(u)
  }

  /** Keeps the units `sel` accepts, in their original order. */
  function Select(us: seq<Unit>, sel: Selector): (r: seq<Unit>)
    ensures |r| <= |us|
    ensures forall u {:trigger u in r} :: u in r <==> u in us && Keeps(sel, u)
  {
    if us == [] then []
    else (if Keeps(sel, us[0]) then [us[0]] else []) + Select(us[1..], sel)
  }

  function OfKind(us: seq<Unit>, k: UnitType): seq<Unit> {
    Select(us, OfType(k))
  }

  function ReadyOnes(us: seq<Unit>): seq<Unit> {
    Select(us, ReadySel)
  }

  function IdleOnes(us: seq<Unit>): seq<Unit> {
    Select(us, IdleSel)
  }

  function CollectingOnes(us: seq<Unit>): seq<Unit> {
    Select(us, CollectingSel)
  }

  function CloserThanUnits(us: seq<Unit>, r: nat, p: Point): seq<Unit> {
    Select(us, CloserThanSel(r, p))
  }

  function FurtherThanUnits(us: seq<Unit>, r: nat, p: Point): seq<Unit> {
    Select(us, FurtherThanSel(r, p))
  }

  /** The index `closest_to` picks: a unit nearest to `p`, the first one on a tie. */
  function ClosestIndex(us: seq<Unit>, p: Point): (k: nat)
    requires |us| > 0
    ensures k < |us|
    ensures forall i :: 0 <= i < |us| ==> DistSq(us[k].pos, p) <= DistSq(us[i].pos, p)
    ensures forall i :: 0 <= i < k ==> DistSq(us[i].pos, p) > DistSq(us[k].pos, p)
  {
    if |us| == 1 then 0
    else
      var rest := ClosestIndex(us[1..], p);
      if DistSq(us[0].pos, p) <= DistSq(us[rest + 1].pos, p) then 0 else rest + 1
  }

  /** The index `furthest_to` picks: a unit furthest from `p`, the first one on a tie. */
  function FurthestIndex(us: seq<Unit>, p: Point): (k: nat)
    requires |us| > 0
    ensures k < |us|
    ensures forall i :: 0 <= i < |us| ==> DistSq(us[k].pos, p) >= DistSq(us[i].pos, p)
    ensures forall i :: 0 <= i < k ==> DistSq(us[i].pos, p) < DistSq(us[k].pos, p)
  {
    if |us| == 1 then 0
    else
      var rest := FurthestIndex(us[1..], p);
      if DistSq(us[0].pos, p) >= DistSq(us[rest + 1].pos, p) then 0 else rest + 1
  }

  function ClosestTo(us: seq<Unit>, p: Point): Unit
    requires |us| > 0
  {
    us[ClosestIndex(us, p)]
  }

  function FurthestTo(us: seq<Unit>, p: Point): Unit
    requires |us| > 0
  {
    us[FurthestIndex(us, p)]
  }

  /** The two conditions on `ClosestIndex` pin its result down: no other index
      is both nearest and first among the nearest. */
  lemma {:induction false} ClosestIndexUnique(us: seq<Unit>, p: Point, j: nat)
    requires j < |us|
    requires forall i :: 0 <= i < |us| ==> DistSq(us[j].pos, p) <= DistSq(us[i].pos, p)
    requires forall i :: 0 <= i < j ==> DistSq(us[i].pos, p) > DistSq(us[j].pos, p)
    ensures ClosestIndex(us, p) == j
  {
  }

  /** The read-only world view the engine hands the bot each tick.
      `enemyStart` is the first of the enemy start locations; `pending` counts
      units and structures of a type already ordered but not yet present;
      `affordable` and `affordableUpgrades` answer `can_afford` for this tick;
      `upgrades` holds the completed upgrades. */
  datatype Snapshot = Snapshot(
    units: seq<Unit>,
    mineralFields: seq<Unit>,
    geysers: seq<Unit>,
    knownEnemyStructures: seq<Unit>,
    startLocation: Point,
    enemyStart: Point,
    minerals: int,
    vespene: int,
    supplyUsed: int,
    pending: map<UnitType, nat>,
    affordable: set<UnitType>,
    affordableUpgrades: set<Upgrade>,
    upgrades: set<Upgrade>)
  {
    function UnitsOf(k: UnitType): seq<Unit> {
      OfKind(units, k)
    }

    function Townhalls(): seq<Unit> {
      Select(units, OfTypes(TownhallKinds))
    }

    /** A zerg player's workers are its drones. */
    function Workers(): seq<Unit> {
      UnitsOf(Drone)
    }

    function Larvae(): seq<Unit> {
      UnitsOf(Larva)
    }

    /** Zerglings followed by hydralisks, as the union of the two collections orders them. */
    function Forces(): seq<Unit> {
      UnitsOf(Zergling) + UnitsOf(Hydralisk)
    }

    function Pending(k: UnitType): nat {
      if k in pending then pending[k] else 0
    }
  }

  /** What a tick may send to the engine. */
  datatype Command =
    | Attack(unit: Tag, target: Point)
    | Move(unit: Tag, target: Point)
    | Gather(unit: Tag, resource: Tag)
    | Train(producer: Tag, product: UnitType)
    | Research(structure: Tag, upgrade: Upgrade)
    | Morph(structure: Tag, into: UnitType)
    | Inject(queen: Tag, hatchery: Tag)
    | BuildNear(building: UnitType, near: Point)
    | BuildOnGeyser(worker: Tag, geyser: Tag)
    | ExpandNow

  /** The assertion the library raises when `random` or `closest_to` is asked of
      an empty collection; it aborts the rest of the tick. */
  datatype Fault = NoMineralField | NoWorker | NoGeyser
}
