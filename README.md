# BaseTrade zerg bot: a verified model of `MyBot`

BaseTrade's bot is a StarCraft II zerg player built on the python-sc2
library. It keeps no state of its own. Every game step, `on_step` reads the
world, walks down a list of rules in priority order and sends commands to the
engine. A rule that spends a larva ends the step. Three helper queries feed
the rules:

- `select_target` chooses where to attack;
- `need_worker_mineral` chooses where a spare drone should mine;
- `should_expand` decides whether to build a new hatchery.

The model has five modules:

- `Sc2` (sc2.dfy) holds the part of the library the bot reads and writes. It has
  points on an integer lattice, units, the per-step `Snapshot` of the world,
  the `Command`s a step may issue, and the `Units` filters (`closer_than`,
  `idle`, `ready`, …). It also has `closest_to` and `furthest_to`, which pick
  the first unit at minimal or maximal distance. The `Fault`s are the assertion
  the library raises when `random` or `closest_to` is asked of an empty
  collection.
- `MyBotHelpers` (helpers.dfy) holds the three helper queries as functions. A
  random draw is an explicit index argument.
- `MyBotPolicy` (policy.dfy) is the specification of a step, written over the
  snapshot:
  - the gate of every rule;
  - `TickOutcome`, the rule that ends the step: all-out attack, a larva spent
    on a unit, a raised assertion, or the list run to its end;
  - `Explains`/`Explained`, the rule behind every command issued;
  - the "done" predicates, which say what each group of rules must have issued
    once the step reaches it.
- `MyBotPlan` (plan.dfy) is the reference definition of a step's order. `Plan`
  lists the rules a step fires, one `Slot` per firing, in the order the source
  fires them. A slot leaves out only the random draws. `Follows(why, plan)`
  says that the rules behind a batch fire exactly as the plan lists them,
  with the same order and the same number of firings. Two lemmas say what
  this pins down:
  - `PlanFixesCommands`: two batches that follow the same plan differ only
    where a rule draws at random;
  - `PlanFollowsSourceOrder`: the plan never goes back to an earlier line of
    bot/main.py. Only a loop's rule fires twice in a row from the same line,
    so every other rule fires at most once.
- `MyBot` (bot.dfy) runs `on_step` the way the source does. It loops over the
  ready townhalls, the army, the extractors and the idle drones, and it returns
  early at the same places. Every section is a method proved against the
  specification. `OnStep` proves the following:
  - the step ends as `TickOutcome` says;
  - it spends at most one larva, and only with its last command;
  - every command has a rule whose gate held;
  - every rule the step reaches has issued what it must;
  - the rules behind its commands follow `Plan`: exact order and
    multiplicity.

A random choice in a method (`larvae.random`, `excess_worker.random`,
`random_on_distance`) is a nondeterministic choice (`:|`). The proofs
therefore hold for every draw.

## Model

| member | source | states |
|---|---|---|
| MyBotHelpers.SelectTargetIsCandidate | bot/main.py:14-18 | whatever is drawn, `select_target` answers the position of a known enemy structure, or the enemy start location when none is known |
| MyBotHelpers.SelectTargetReachesEveryCandidate | bot/main.py:14-18 | every known enemy structure's position is the answer for some draw |
| MyBotHelpers.NeedWorkerMineralAnswers | bot/main.py:125-130 | `None` exactly when no ready townhall is undersaturated; it raises exactly when one is but the map has no mineral field; otherwise it answers a mineral field nearest to an undersaturated ready townhall |
| MyBotHelpers.NeedWorkerMineralReachesEveryCandidate | bot/main.py:125-130 | every field nearest to some undersaturated ready townhall is the answer for some draw |
| MyBotHelpers.ShouldExpandExactly | bot/main.py:132-139 | the early returns taken together: never below 300 minerals or with a hatchery pending; otherwise a pool with fewer than two townhalls, a den with fewer than three, or fewer than 66 collecting drones |
| MyBotHelpers.ShouldExpandFromThreeBases | bot/main.py:132-139 | from three townhalls on, only the minerals, the pending hatchery and the 66-drone threshold decide |
| MyBotHelpers.ShouldExpandMonotoneInMinerals | bot/main.py:132-139 | more minerals never turn a wanted expansion into an unwanted one |
| MyBotPolicy.NoExtractorBeforeSecondBase | bot/main.py:102-103 | with at most one townhall the extractor rule never fires |
| MyBotPolicy.ExtractorOrderKeepsRatio | bot/main.py:102-104 | an extractor ordered under the gate keeps extractors, built and pending, at most two per townhall beyond the first |
| MyBotPolicy.TickOutcomeCauses | bot/main.py:20-123 | a step raises only on a map with no mineral field, a player with no drone, or a map with no geyser; it spends a larva only on a unit whose gate held, and only while a larva exists |
| MyBotPolicy.DroneFirst | bot/main.py:31-37 | with a townhall standing and a mineral field on the map, the drone gate alone decides that the step ends by training a drone |
| MyBotPolicy.ExplainedLarvaTrainsAreGated | bot/main.py:35-122 | in any explained batch, every larva-consuming command uses an existing larva under its unit's gate |
| MyBotPolicy.ExplainedLarvaThresholds | bot/main.py:67-122 | an overlord is trained only with headroom below 2 (eight supply per built or pending overlord), and a zergling only with fewer than 20 zerglings and minerals more than 500 above gas |
| MyBotPolicy.ExplainedBuildsAreGated | bot/main.py:94-107 | an extractor is ordered only below two per townhall beyond the first, with none pending and the extractor affordable; an expansion only when `should_expand` holds |
| MyBotPolicy.ExplainedArmyOrders | bot/main.py:58-64 | attacks happen only above 190 supply and aim at a `select_target` answer; moves happen only at 190 or below and lead to distance 5 from the furthest townhall |
| MyBotPolicy.LarvaLastCount | bot/main.py:36-123 | a batch whose only larva command is its last spends exactly one larva if the last command trains, none otherwise |
| MyBotPolicy.LarvaLastAfter | bot/main.py:36-37 | commands that spend no larva, followed by a batch whose larva command is last, keep it last and keep its product |
| MyBotPolicy.UpkeepKept | bot/main.py:39-56 | a townhall's upkeep commands stay in the batch when commands are added before or after |
| MyBotPolicy.ArmyKept | bot/main.py:58-64 | the army orders stay in the batch when commands are added before or after |
| MyBotPolicy.BuildKept | bot/main.py:90-107 | the build orders stay in the batch when commands are added before or after |
| MyBotPolicy.StaffKept | bot/main.py:109-113 | the extractor gather orders stay in the batch when commands are added before or after |
| Sc2.Select | bot/main.py:21-22 | a `Units` filter keeps exactly the units it accepts, and never more units than it was given |
| Sc2.ClosestIndex | bot/main.py:29 | `closest_to` picks a unit at minimal distance, the first such one |
| Sc2.FurthestIndex | bot/main.py:62 | `furthest_to` picks a unit at maximal distance, the first such one |
| Sc2.ClosestIndexUnique | bot/main.py:117 | the nearest-and-first conditions pin `closest_to`'s answer down to one index |
| Sc2.RingOfFiveOnCircle | bot/main.py:64 | every point `random_on_distance(5)` may answer lies at distance 5 from the centre |
| MyBotPlan.PlanFollowsSourceOrder | bot/main.py:20-123 | along a step's plan the source line never decreases. Two firings share a line only in a loop (last stand, townhalls, attack, move, extractors, idle drones), so every other rule fires at most once per step |
| MyBotPlan.PlanFixesCommands | bot/main.py:20-123 | two batches whose rules follow the same plan have the same length and the same command wherever the rule draws nothing at random |
| MyBotPlan.FirstDroneGate | bot/main.py:31-37 | some ready townhall trains a drone exactly when the drone gate holds |
| MyBot.MineralFound | bot/main.py:39-42 | `need_worker_mineral` answers a field exactly when some ready townhall is undersaturated, and then the field nearest the drawn townhall |
| MyBot.OnStep | bot/main.py:20-123 | the step raises the fault `TickOutcome` names and spends the larva it names, with its last command and at most once. Every command has a rule whose gate held, and the rules fire exactly as `Plan` lists them, in order and number. With no townhall, it issues exactly one attack on the enemy start per drone, queen, zergling and hydralisk. When a drone is trained, every ready townhall before it has had its upkeep. Each rule group the step gets past has issued everything its gates call for |
| MyBot.TownStep | bot/main.py:29-123 | the same as `OnStep`, for a step with a townhall standing; its rules follow `TownPlan` |
| MyBot.AttackWithEverything | bot/main.py:24-27 | with no townhall: an attack on the enemy start for each drone, then queen, then force, in that order |
| MyBot.LastStandSpendsNoLarva | bot/main.py:24-27 | the last-stand batch spends no larva |
| MyBot.TownhallPass | bot/main.py:31-56 | the townhall loop raises exactly when `PassFault` holds, and then issues nothing. It trains a drone exactly when it does not raise and the drone gate holds, and that drone is its last command. When it does not raise, every ready townhall before the first that trains a drone has had its upkeep; run to its end, every ready townhall has. Its rules follow `PassPlan`: the upkeep townhall by townhall, then the drone |
| MyBot.TownhallUpkeep | bot/main.py:39-56 | one townhall's upkeep. It raises exactly when `need_worker_mineral` does, and then issues nothing. Otherwise every rule whose gate holds has issued its command, and the rules fire as `UpkeepPlan` lists them: spare worker, queen, inject, each at most once and only under its gate |
| MyBot.SpareWorkerOrder | bot/main.py:39-42 | one gather order exactly when the townhall is oversaturated, has a drone within 10 and a mineral was found; the drone is one near the townhall and the field one `need_worker_mineral` may answer |
| MyBot.QueenOrder | bot/main.py:44-49 | a queen is trained at the townhall exactly when a ready pool exists, the townhall is idle, no queen is within 10 and a queen is affordable |
| MyBot.InjectOrder | bot/main.py:51-56 | the first idle queen within 10 injects the townhall exactly when it can inject |
| MyBot.TrainFromLarva | bot/main.py:36-122 | under a unit's gate, some existing larva is ordered to turn into that unit |
| MyBot.ArmyOrders | bot/main.py:58-64 | above 190 supply every idle force attacks; otherwise every force more than 10 from the furthest townhall moves. The rules follow `ArmyPlan`: exactly one order per such force, in the order of the forces. No larva is spent |
| MyBot.ArmyAttacks | bot/main.py:58-60 | one attack per idle zergling or hydralisk, in order |
| MyBot.ArmyMoves | bot/main.py:61-64 | one move per force further than 10 from the furthest townhall, in order, each to a point at distance 5 from it |
| MyBot.MoveNear | bot/main.py:64 | a move of the given unit to a point on the circle of radius 5 around the furthest townhall |
| MyBot.MidStages | bot/main.py:66-123 | the rest of the step after the army orders ends as `OutcomeAfterArmy` says: an overlord, a hydralisk, a fault or a zergling. Each rule group reached has issued what its gates call for, and the rules follow `AfterArmyPlan` in order and number |
| MyBot.TechStage | bot/main.py:72-88 | the rules follow `TechPlan`: zergling speed, lair, then the two hydralisk upgrades, each once and only under its gate. Then a hydralisk, exactly when its gate holds, as the last command |
| MyBot.PoolTech | bot/main.py:72-78 | with a ready pool: the batch is exactly the zergling speed research, if not done and affordable, followed by the lair morph of `hq` when no lair exists, `hq` is idle and a lair is affordable |
| MyBot.DenTech | bot/main.py:80-85 | with a ready den: the batch is exactly the two hydralisk upgrades not yet done and affordable, in the source's order |
| MyBot.LateStages | bot/main.py:90-123 | the build, staffing, idle-drone and zergling rules end as `OutcomeAfterHydralisk` says. Each group reached has issued what its gates call for, and the rules follow `AfterHydraliskPlan` in order and number |
| MyBot.BuildOrders | bot/main.py:90-107 | it raises exactly when the extractor rule finds no worker or no geyser. The rules follow `BuildPlan`: pool, expansion, den, then extractor, each once and exactly when its gate holds (the extractor only when it does not raise) |
| MyBot.PoolOrder | bot/main.py:90-92 | a spawning pool near `hq` exactly when none exists or is pending and one is affordable |
| MyBot.ExpandOrder | bot/main.py:94-95 | an expansion exactly when `should_expand` holds |
| MyBot.DenOrder | bot/main.py:97-100 | a hydralisk den near `hq` exactly when a ready lair exists, no den exists or is pending, and one is affordable |
| MyBot.ExtractorOrder | bot/main.py:102-107 | under the gate: no drone raises, no geyser raises, and otherwise some drone builds on the geyser nearest to it; nothing happens outside the gate |
| MyBot.StaffExtractors | bot/main.py:109-113 | every extractor short of harvesters that has a drone within 20 gets a drone gathering at it. The rules follow `StaffPlan`: one gather per such extractor, in the order of the extractors |
| MyBot.StaffOne | bot/main.py:110-113 | one gather order at the extractor exactly when a drone is within 20 |
| MyBot.SendIdleDrones | bot/main.py:115-118 | it raises exactly when an idle drone exists but no mineral field does; otherwise every idle drone, in order, gathers at the field nearest to it |
| MyBot.FinalStages | bot/main.py:109-123 | the rules follow `FinalPlan`: staffing, then idle drones, which may raise, then a zergling exactly when they do not raise and the zergling gate holds |
| MyBot.ZerglingOrder | bot/main.py:120-123 | one zergling is trained exactly when there are fewer than 20 zerglings, minerals exceed gas by more than 500, a larva exists and a zergling is affordable |

## Left out

- The bot's `NAME`, read from botinfo.json (bot/main.py:11-12), is not modelled. Neither is the match setup in run_locally.py; it is file and process I/O.
- Placement by the library is not modelled. `expand_now`, `build(..., near=hq)` and the engine's choice of spot are outside this model. Their commands are recorded as `ExpandNow` and `BuildNear(kind, hq position)`.
- Engine failures are not modelled. A `build` that finds no spot and a command the engine rejects are left out, and the unused result `err` (bot/main.py:107) is dropped.
- `async`/`await` is not modelled. A step is a sequence of commands issued in order, and a step runs against one snapshot.
- `can_afford`, `already_pending`, the completed upgrades and `get_available_abilities` are fields of the snapshot. They do not change during a step, whereas the engine would charge for each order as it is sent. As a result, two orders in one step may both be "affordable" here.
- Geometry is not floating point. Positions are integer lattice points, and distances are compared as squared distances. `random_on_distance(5)` is one of the 12 lattice points at distance exactly 5.
- `enemy_start_locations` is reduced to its first element, the only one the bot reads.
- The random draws' distributions are not modelled. A draw is an arbitrary choice, and the proofs hold for all of them.
- A raised assertion is modelled as a `Fault` that ends the step. Commands sent before it stay sent. What the caller of `on_step` does with the exception is not modelled.
- The game's reaction to commands is not modelled: units moving, resources changing, the next step.
- MyBot.ArmyAttacks: states only that each idle force receives an attack. The target is constrained separately, through `Explained` and `MyBotPolicy.ExplainedArmyOrders`. This keeps the method's proof within the resource limit.
