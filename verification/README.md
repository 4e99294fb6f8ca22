# The turn resolver of Crown & Borough, verified

This project models, in Dafny, how the engine resolves the simultaneous
movements of one turn, and proves what its comments promise. The state is the
engine's own: armies on territories, intents (attacks, joins, dispersions,
supports), boolean decisions (does an attack move, does a join or dispersion
empty its origin, is an army dislodged), the recorded contest, the board of
live armies.

What a maintainer gets from it:

- **No cycle falls back to the status quo.** Once joins and dispersions from
  attacked origins are cancelled, every strongly connected component of the
  dependency graph has a consistent resolution, and the settled turn is the
  greatest one: every attack that succeeds in some consistent resolution
  succeeds in it. It does not depend on the order of the search
  (`Adjudicator.Adjudicator.ResolveAll`, `SettledTurn.GreatestUnique`). The proof
  stratifies departures above attacks, shows that the supports that survive static
  cutting contribute constants, and that the remaining move equations are
  monotone (`Greatest`).
- **The search is the one described.** Tarjan's components are the maximal
  strongly connected sets in dependency order; the pruned search finds a
  resolution exactly when one exists and returns the first one in the fixed order
  with success before failure; no value is read before it is settled or on trial, by
  the move equation or by the join and dispersion rules, which read the decisions of
  their group one by one.
- **Two descriptions of one combat agree.** The join and dispersion rules answer
  the same on the recorded contest as on the settled decisions, and on one group
  of orders as on the whole turn.
- **The board comes out right.** After attacks, joins, dispersions and fusions no
  two armies share a territory, so the "multiple armies" error never fires; for
  every tally of troops by player and territory the board holds exactly what the
  orders sent; new army identifiers are fresh; the retreats keep occupancy unique.
- **What the rules do is said twice.** Beside the functions the engine's methods are proved
  against, each rule is characterised once more from the raw fields of the turn, in both
  directions and without naming those functions: exactly when an attack moves and an army is
  dislodged (`MoveEquation`), which targets a dispersion serves and which orders are refused
  (`PeacefulEquation`), which joins succeed and where they end (`JoinEquation`), which army
  keeps its name and how many troops stand where (`Movement`, `BoardEquation`), which intent
  an order gives (`OrdersRead`), where the dislodged go (`RetreatOrder`), who is elected, which
  alliance is a head and what becomes of a dead noble's cards (`ElectionRead`, `AllianceRead`,
  `DeckRead`).
- **Neighbours with invariants of their own**: the stable alliance heads, the noble
  deck in which every card is in exactly one place, and the winter elections.

`TurnResolution.ResolveTurn` runs the whole path, from orders to the board after the
retreats, and carries these results in one contract.

## Where the code and its comments part

The adjudicator describes a departure as a join or a dispersion that empties its
origin (`internal/engine/adjudicator.go:8-12`, `internal/engine/adjudicator_peaceful.go:216-219`).
That is not so for some dispersions with more targets than troops: the army sends its
last troop, leaves nobody, and yet does not depart, because a target stays unresolved.
The module `Overdrafts` says for which, from the order and the army's size alone. An
order is *overdrawn* when it does not loop, names more targets than there are troops,
its origin not among the first of them, and leaves no noble unassigned or bound for
more or later targets than the troops reach.

- In every prepared and consistently resolved turn, an army whose order is not overdrawn
  empties its origin if and only if its departure was settled (`Overdrafts.DeparturesEmptyOrigins`).
- For every overdrawn order that repeats no target, or whose nobles go to the targets
  served first, there is a turn with that order in which the origin is emptied and no
  departure was settled; so such an order always keeps the claim if and only if it is not
  overdrawn (`Overdrafts.KeptUnlessOverdrawn`). Without nobles, the turn with that order
  alone and free targets is one.
- The smallest input: one army, one troop, two free targets (`Overdrafts.OverstretchedFails`).

## How to read the files

| files | subject |
|---|---|
| `Wrappers`, `SortedIds`, `Turn`, `Facts`, `FactQueries` | identifiers in sorted order, the turn, what combat tells the rules, and what must be known to ask |
| `Intentions`, `Escorts`, `OrdersRead` | orders to intents, bad weather, the nobles a dispersion takes along, cancelled origins, supports; and the intents read off the orders |
| `Combat`, `Peaceful`, `Groups`, `PeacefulGroups` | the move equation and strengths, the rules of joins and dispersions, groups of orders by closure and by union-find |
| `FactReads`, `Dependencies`, `DependencyLists` | what each decision reads, and the lists the engine builds of it |
| `Tarjan`, `CycleSearch`, `Components`, `Adjudicator` | the components, the search, the settling of a turn |
| `Greatest`, `SettledTurn`, `MoveEquation` | the greatest consistent resolution, what holds in a settled turn, and exactly when an attack moves |
| `Locality`, `Contest`, `ContestRecord`, `SettledCombat`, `ContestRead` | one group against the whole turn, the recorded contest |
| `Joins`, `Dispersions`, `PeacefulTurn`, `GroupTurn`, `PeacefulEquation`, `JoinEquation` | what the rules achieve, the loops that run them on a turn or on one group, and what they do read off a settled turn |
| `Presence`, `Ledger`, `Movement`, `Execution`, `BoardEquation`, `Overdraft` | who may stand where, troops counted, the movements applied, the board they leave, when an origin is emptied |
| `Retreats`, `RetreatOrder`, `TurnRetreats`, `ResolveTurn`, `Nearest` | retreats, the order of preference, those of a turn, the turn as a whole, and the level-by-level search of the nearest territory |
| `Alliance`, `AllianceRead`, `NobleDeck`, `DeckRead`, `Elections`, `ElectionRead` | the neighbours |

Code that updates state in place is a class or a method with loops, proved
against a function of its inputs or its old state; the lemmas are about those functions.
A context is `WellFormed` when the start of the turn has one army per
territory, at most one order per army, given from where the army stands, and a
destination other than that place; it is `Prepared` when moreover its supports are
those of `calculateSupports` and attacked origins are cancelled.
`Intentions.Intents.Prepare` establishes all of it from arbitrary validated orders.

## Model

| member | source | states |
|---|---|---|
| `TurnResolution.ResolveTurn` | `internal/engine/movement.go:38-56` | From any validated orders: the adjudicator receives a prepared turn, settles it as its greatest consistent resolution without falling back, and the execution leaves at most one army per territory, each where its player sent or left troops, every troop where its order sends it, fresh names, and an occupancy index that errs nowhere; the dislodged armies then retreat to their fates and no place is held twice |
| `Intentions.Intents.EnumerateIntentions` | `internal/engine/intentions.go:64-303` | After the loop an army has an attack, a join or a dispersion exactly when its order, given from where it stands and in fair weather, asks for one; a famished army never attacks, and a dispersion keeps the targets in fair weather if any, with its nobles if validly assigned |
| `Intentions.Intents.FairWeather` | `internal/engine/intentions.go:171-208` | No intent leaves a territory struck by bad weather or leads to one; a dispersion keeps at least one target |
| `Intentions.Intents.EscortsThere` | `internal/engine/intentions.go:304-339` | A dispersion takes along only nobles on its origin, each to one of the targets it kept |
| `Escorts.ValidateDisperse` | `internal/engine/intentions.go:304-339` | Accepts exactly the assignments that name nobles who are there, each once, and sends the others to the last destination that asks for them |
| `Escorts.SentOnce` | `internal/engine/intentions.go:304-339` | A valid assignment sends no noble to two destinations and nobody who is not there |
| `Escorts.OthersLeaveNobody` | `internal/engine/intentions.go:304-339` | If some destination asks for the others, every noble there is assigned |
| `Intentions.Intents.CancelAttackedOriginPeaceful` | `internal/engine/intentions.go:136-153` | Withdraws every join and dispersion whose origin is attacked by anyone, and no other, and records whose |
| `Intentions.Intents.CalculateSupports` | `internal/engine/supports.go:5-35` | A support applies if and only if it names an army that attacks where the support says, or, without a destination, an army that does not attack |
| `Intentions.Intents.Prepare` | `internal/engine/intentions.go:64-153` | Whatever the validated orders, the three steps leave a prepared turn: no order is lost but peaceful ones from attacked origins, every intent is its order's |
| `OrdersRead.AttackIff` | `internal/engine/intentions.go:171-210` | An army attacks if and only if its order says so, it stands where the order was given, it is fed, and neither end is in bad weather; with all its troops |
| `OrdersRead.JoinIff` | `internal/engine/intentions.go:136-213` | An army joins if and only if its order says so from where it stands, neither end is in bad weather, and no attack at all is directed at its place |
| `OrdersRead.SupportIff` | `internal/engine/supports.go:5-35` | An army supports if and only if its order says so and no place it names is in bad weather; the support applies if and only if the army on the place supported attacks where the support says, or attacks nowhere |
| `OrdersRead.DisperseIff` | `internal/engine/intentions.go:171-339` | An army disperses if and only if its order says so, its place is in good weather and not attacked, some target is in good weather, and the nobles named for such targets are there and named once; the intent keeps exactly those targets in the order named, and each noble goes to the target it is named for or, unnamed, to the last that asks for the others |
| `Groups.ClosureLeast` | `internal/engine/adjudicator_peaceful.go:122-126` | The group of an order is the least set of territories containing it that no join or dispersion crosses |
| `PeacefulGroups.Forest.Find` | `internal/engine/adjudicator_peaceful.go:164-214` | Path compression returns the root and leaves every territory under the root it had; it terminates on any forest the loop builds |
| `PeacefulGroups.Forest.Union` | `internal/engine/adjudicator_peaceful.go:164-214` | Puts an order's origin and destinations under one root, only ever merges trees, and merges no two that no order links |
| `PeacefulGroups.TreesAreGroups` | `internal/engine/adjudicator_peaceful.go:122-126` | Two orders share a root of the union-find exactly when a chain of overlapping orders links them |
| `PeacefulGroups.FindGroups` | `internal/engine/adjudicator_peaceful.go:164-214` | Every peaceful army gets exactly the armies of its closure, whatever the order of the unions |
| `DependencyLists.StaticSupportCuts` | `internal/engine/adjudicator.go:602-620` | Lists exactly the supports attacked by an enemy not coming from where the support is directed |
| `DependencyLists.DependencyList` | `internal/engine/adjudicator.go:171-236` | The list built for a decision has exactly the decisions of the over-approximation that ReadsSuffice proves sufficient |
| `Dependencies.ReadsAreDecisions` | `internal/engine/adjudicator.go:111-113` | Every dependency is a decision of the turn, so the graph is closed |
| `Dependencies.ReadsSuffice` | `internal/engine/adjudicator.go:169-236` | Two views that agree on the dependencies of a decision adjudicate it alike, through strengths, holds, ghosts, join and dispersion rules: nothing outside them is ever read |
| `FactReads.SameRun` | `internal/engine/adjudicator_peaceful.go:24-120` | Combat facts that agree on the territories and armies touched by a set of orders give those orders the same run of the rules |
| `Tarjan.StronglyConnected` | `internal/engine/adjudicator.go:114-155` | The components partition the decisions; members of one reach each other and nobody outside reaches and is reached by them; each comes after all it depends on |
| `Tarjan.Search.Visit` | `internal/engine/adjudicator.go:114-155` | Visiting a node keeps the index, the stack and the listed components sound, and returns a low link that bounds and reaches an older stacked node unless the node closed its component |
| `Tarjan.ReachesByPath` | `internal/engine/adjudicator.go:111-155` | The reachability the components are defined by is the existence of a chain of dependencies |
| `CycleSearch.CheckHolds` | `internal/engine/adjudicator.go:318-341` | Pruning is sound: when all a choice reads is fixed, every resolution with these choices gives it the value checked |
| `CycleSearch.SameDerived` | `internal/engine/adjudicator.go:318-347` | A dislodgement derived from fixed choices has its value in every resolution with these choices, so what backtracking leaves behind is never read stale |
| `CycleSearch.SearchComplete` | `internal/engine/adjudicator.go:318-341` | With every choice fixed and checked the assignment is a consistent resolution of the component |
| `CycleSearch.FirstWithSuccess` | `internal/engine/adjudicator.go:238-247` | A resolution found after trying success is the first of all in the order with success before failure |
| `CycleSearch.FirstWithFailure` | `internal/engine/adjudicator.go:238-247` | A resolution found with failure is the first of all once success is excluded |
| `Adjudicator.Adjudicator.MakePlan` | `internal/engine/adjudicator.go:278-316` | Every choice and every derivation of a cycle is placed at a depth where all it reads inside the cycle is fixed, and none is missed |
| `Adjudicator.Adjudicator.Run` | `internal/engine/adjudicator.go:318-347` | From any depth, succeeds with the first resolution extending the choices made, or proves there is none and restores the choices and all progress of lower depths |
| `Adjudicator.Adjudicator.Value` | `internal/engine/adjudicator.go:377-385` | Reads a settled value first, else a value on trial; requires one of them, so each caller is proved never to meet the unsettled-decision panic |
| `Adjudicator.Adjudicator.Decide` | `internal/engine/adjudicator.go:397-597` | Computes the adjudication of a decision from settled and trial values knowing only its dependencies: the move equation with head-to-head, ghosts, own supports, holds, walls and castles, dislodgement, and the rules of a group; no read lacks a value |
| `Adjudicator.Adjudicator.OutcomeNow` | `internal/engine/adjudicator_peaceful.go:221-257` | The rules of a group run on the decisions now known, when its dependencies are |
| `GroupTurns.RunOnGroup` | `internal/engine/adjudicator_peaceful.go:221-298` | The engine's own loops, run on a copy of the turn restricted to the group, read only decisions that have a value, and give the outcome of the army in it |
| `Dependencies.GroupInformed` | `internal/engine/adjudicator.go:187-201` | The dependencies listed for a group answer everything its rules may ask: the attacks on the places touched, the armies starting there, and the dislodgement of the armies that give the orders |
| `Adjudicator.Adjudicator.StatusQuo` | `internal/engine/adjudicator.go:351-362` | Fails every attack and departure of the component and adjudicates its dislodgements on that |
| `Adjudicator.Adjudicator.Solve` | `internal/engine/adjudicator.go:249-263` | Settles exactly the component: by its first resolution if it has one, by the status quo exactly when it has none |
| `Adjudicator.Adjudicator.ResolveAll` | `internal/engine/adjudicator.go:90-94` | Settles every decision; every success satisfies its equation and every dislodgement equals its adjudication on the final values even after a fallback; on a prepared turn no fallback occurs and the result is the greatest consistent resolution |
| `Greatest.MoveReadsNoDeparture` | `internal/engine/adjudicator.go:34-38` | Once attacked origins are cancelled, no attack's adjudication reads a departure |
| `Greatest.SupporterUntouchable` | `internal/engine/adjudicator.go:34-40` | A support still standing toward a territory that nobody attacks from is given by an army only attackable by allies it holds back |
| `Greatest.ForcesConstant` | `internal/engine/adjudicator.go:34-40` | Supports contribute the same to every consistent resolution |
| `Greatest.WinnersMonotone` | `internal/engine/adjudicator.go:34-40` | More successful attacks never make one fail: the move equations are monotone |
| `Greatest.MostMovesFixpoint` | `internal/engine/adjudicator.go:34-40` | The union of all self-supporting sets of attacks is exactly the set of attacks it makes succeed |
| `Greatest.GreatestConsistent` | `internal/engine/adjudicator.go:34-40` | A prepared turn always has a resolution in which every decision equals its adjudication |
| `Greatest.ConsistentBelowGreatest` | `internal/engine/adjudicator.go:29-33` | No consistent resolution, of the turn or of any part closed under reads, lets an attack succeed that fails in the greatest |
| `Components.GreatestResolves` | `internal/engine/adjudicator.go:254-256` | Whatever components were settled before, the next one has a resolution: the search cannot fail |
| `Components.SolvedIsGreatest` | `internal/engine/adjudicator.go:238-263` | Succeeding first in the fixed order is succeeding most: a solved component has the values of the greatest resolution |
| `SettledTurn.GreatestUnique` | `internal/engine/adjudicator.go:29-33` | Being total, consistent and above every consistent resolution determines every decision: the order of the search does not matter |
| `SettledTurn.RotationSucceeds` | `internal/engine/adjudicator.go:29-33` | A rotation of attacks of any length, contested by no other attack, moves as a whole whenever the force each has in the turn beats the walls it would meet |
| `SettledTurn.ForceOfTurn` | `internal/engine/adjudicator.go:524-542` | The force of an attack is the same in every consistent resolution: it is fixed by the turn alone |
| `SettledTurn.NeverSwap` | `internal/engine/adjudicator.go:455-520` | Two armies attacking each other never both move, in any justified turn, fallback included |
| `SettledTurn.MoverNotGhost` | `internal/engine/adjudicator.go:514-520` | An attack that lost its head-to-head battle never moves |
| `SettledTurn.OneWinner` | `internal/engine/contest.go:126-174` | At most one attack enters a territory |
| `SettledTurn.DislodgedByEnemy` | `internal/engine/adjudicator.go:435-446` | A dislodged army stayed, some attack entered its territory, and no attack that entered is its owner's |
| `SettledTurn.EnteredMeansGone` | `internal/engine/adjudicator.go:435-446` | Whoever stays where an attack enters is dislodged |
| `MoveEquation.MoveIff` | `internal/engine/adjudicator.go:455-597` | For any values of the other decisions an attack is adjudicated a success exactly when: it wins any head-to-head, neither side counting what the other's player gives; it overcomes the walls, the army that stays and every fed, uncut, undislodged army ordered to support it there, or, where nobody stays, walls that are neither tunneled nor its own side's; and every other attack on the place was driven off or is weaker |
| `MoveEquation.SettledDislodgedIff` | `internal/engine/adjudicator.go:435-446` | In a settled turn an army is dislodged exactly when its order did not take it away and an attack enters its place |
| `MoveEquation.DefenseHolds` | `internal/engine/adjudicator.go:553-597` | An attack enters where an army stays only if it is an enemy's, and its troops with those of its supporters that are not the defender's exceed walls, defender and all its defensive supporters |
| `MoveEquation.UncontestedAssault` | `internal/engine/adjudicator.go:455-597` | Without rivals and without a head-to-head that bound is exact: the attack enters, and the army that stays is dislodged, if and only if it is exceeded |
| `MoveEquation.HolderStays` | `internal/engine/adjudicator.go:435-597` | An army that does not attack and is attacked by one enemy alone is dislodged if and only if its defense is exceeded |
| `ContestRecords.ContestRecord.FindWinner` | `internal/engine/contest.go:126-195` | The loop over the attacks of a territory records a winner exactly when one enters it |
| `ContestRecords.ContestRecord.RemoveAlliedDestinationAttacks` | `internal/engine/contest.go:316-342` | Calls off exactly the attacks on an ally that neither left nor was dislodged, and forgets exactly the combats left without an attack |
| `ContestRecords.ContestRecord.ApplyOutcomes` | `internal/engine/contest.go:406-448` | An attack has succeeded exactly when it still stands, its army is not dislodged and the recorded winner of its destination is its own |
| `ContestRecords.ContestRecord.ResolveContests` | `internal/engine/contest.go:42-120` | The record left by all the passes is the contest defined from the settled decisions alone; a turn without attacks records nothing |
| `Contests.RetreatingAreDislodged` | `internal/engine/contest.go:88-195` | The armies recorded for retreat are exactly those the adjudicator decided dislodged |
| `Contests.WonIff` | `internal/engine/contest.go:406-448` | In a settled turn an attack is recorded as won exactly when it moves |
| `Contests.RecordAgrees` | `internal/engine/adjudicator_peaceful.go:24-120` | settledFacts and decisionFacts answer every question of the join and dispersion rules alike, although one reads the record and the other the decisions |
| `ContestRead.StandsIff` | `internal/engine/contest.go:316-342` | An attack is called off exactly when an ally keeps the place it is directed at and its own army is not dislodged |
| `ContestRead.WinnerIff` | `internal/engine/contest.go:126-174` | The recorded winner of a territory is exactly the attack that enters it |
| `ContestRead.GoneIff` | `internal/engine/contest.go:42-120` | Recorded as vacated are exactly the armies whose order took them away, as dislodged or retreating exactly those decided dislodged |
| `Locality.RunInside` | `internal/engine/adjudicator_peaceful.go:122-126` | Running all the rules on a set of territories no order crosses gives there exactly what running them on the whole turn gives |
| `Contests.GroupSuffices` | `internal/engine/adjudicator_peaceful.go:228-298` | Adjudicating a departure on its group alone gives its outcome in the whole turn |
| `Contests.ExecutionMatchesDepartures` | `internal/engine/adjudicator_peaceful.go:216-257` | Executing joins and dispersions on the recorded contest makes an army depart exactly when the adjudicator settled its departure |
| `JoinRules.JoinsDecided` | `internal/engine/movement.go:187-262` | Every pending join ends decided, and its outcome and host are those a declarative reading of its destination's final state calls for |
| `JoinRules.LastPassAccepts` | `internal/engine/movement.go:187-262` | The final pass fails no join: what was pending succeeds, what was decided is unchanged |
| `JoinRules.PendingWaits` | `internal/engine/movement.go:509-559` | When the rules are stuck, each pending join waits for a pending join at its destination |
| `JoinRules.JoinRingSucceeds` | `internal/engine/movement.go:187-262` | An uncontested ring of joins of any length and any owners succeeds as a whole |
| `PeacefulTurns.PeacefulTurn.ResolveJoins` | `internal/engine/movement.go:187-262` | The loop over records, filters, repeated passes and last pass, computes the state JoinsDecided is about, and terminates |
| `DispersionRules.AllotGreedy` | `internal/engine/movement.go:67-146` | A target gets a troop exactly when it is free and fewer free targets before it than there are troops |
| `DispersionRules.RefusalsEnd` | `internal/engine/movement.go:67-106` | When the rounds end no dispersion is made invalid by its own allotment; a dispersion dropped stays dropped |
| `DispersionRules.RefusedForCause` | `internal/engine/movement.go:67-106` | A dispersion is dropped only when its allotment against the claims of some round makes it invalid |
| `DispersionRules.ArrivalsExhausted` | `internal/engine/movement.go:275-317` | When the sweeps end, no target left out could still be reached |
| `DispersionRules.NeverOverspent` | `internal/engine/movement.go:412-430` | A dispersion carried out resolves at most as many targets as it has troops, and keeps exactly the others |
| `DispersionRules.OneOwnerArrives` | `internal/engine/movement.go:148-164` | Troops of two players never arrive on one territory from elsewhere |
| `DispersionRules.FinalizeKeeps` | `internal/engine/movement.go:166-181` | finalizeDispersions invalidates nothing resolveDispersions kept, and success is having resolved every target |
| `PeacefulTurns.PeacefulTurn.ResolveDispersions` | `internal/engine/movement.go:67-106` | Allotting again until nothing is invalid, releasing claims each time, terminates in the state whose served targets PeacefulEquation.ResolutionIs and RefusedFor characterise |
| `PeacefulTurns.PeacefulTurn.ResolveVacated` | `internal/engine/movement.go:275-310` | The sweeps terminate in the state ArrivalsExhausted is about, and touch only resolved bits and remaining troops |
| `PeacefulTurns.PeacefulTurn.Finalize` | `internal/engine/movement.go:166-181` | The final outcomes recorded are those FinalizeKeeps is about |
| `PeacefulTurns.PeacefulTurn.ResolvePeacefulMovements` | `internal/engine/adjudicator_peaceful.go:302-307` | The four passes in order on the turn's records give the run whose dispersions and joins PeacefulEquation and JoinEquation characterise |
| `PeacefulEquation.AssaultedIs` | `internal/engine/adjudicator_peaceful.go:40-52` | On the settled record a territory is attacked exactly when an attack is directed at it other than on an ally that keeps it |
| `PeacefulEquation.ArrivalByForce` | `internal/engine/movement.go:488-491` | A player arrives with an allied attack exactly when an attack of its own enters |
| `PeacefulEquation.ResolutionIs` | `internal/engine/movement.go:67-146` | Whatever was refused before, a target gets a troop exactly when it is free and fewer free targets come before it than there are troops; free means open to the dispersion by the state of combat, the army there and its orders, and not open to another player's dispersion still standing |
| `PeacefulEquation.TargetServed` | `internal/engine/movement.go:108-146` | The plain cases: a dispersion carried out serves its origin, an empty place, one its army left by attacking, an ally's that holds, or one an allied attack enters, unless another player's dispersion names it or as many targets come before it as there are troops |
| `PeacefulEquation.ServedLate` | `internal/engine/movement.go:275-386` | No dispersion ends with troops to spare and a target left out that was freed by a join, a dispersion that emptied its origin or an ally's dispersion, unless serving it would abandon a noble |
| `PeacefulEquation.ServedOnlyIf` | `internal/engine/movement.go:67-386` | A target is served only at once, or late on a place freed so, that no other dispersion names and no other player's join enters |
| `PeacefulEquation.CarriedFacts` | `internal/engine/movement.go:412-486` | A dispersion carried out spends troops it has, loops only with a troop for every target, and leaves no noble alone on its origin |
| `PeacefulEquation.RefusedFor` | `internal/engine/movement.go:412-486` | One that is not carried out is invalid, and either loops with too many targets or would have left a noble alone while some of the others not carried out were out of the way |
| `PeacefulEquation.RefusedWithoutNobles` | `internal/engine/movement.go:412-430` | Without nobles exactly the looping dispersions with more targets than troops are refused |
| `PeacefulEquation.CarriedOutcome` | `internal/engine/movement.go:399-410` | The order of a dispersion carried out succeeds exactly when every target is served, and fails otherwise |
| `PeacefulEquation.DepartsIff` | `internal/engine/adjudicator_peaceful.go:216-257` | A departure is settled exactly when the join succeeds, or every troop of the dispersion is served and all elsewhere |
| `JoinEquation.JoinIff` | `internal/engine/movement.go:187-262` | A join succeeds exactly when: where an attack is directed, it is the only join and an attack of its player enters; elsewhere, only its player's dispersions meet it, the joins so admitted are at most two and its player's, and an army that neither attacks away, joins away nor disperses is its player's and takes in one join only |
| `JoinEquation.JoinEnds` | `internal/engine/movement.go:493-559` | A join has a result exactly when it succeeds: behind the attack that enters, in the army that hosts the place, with the other join under the lower name, or alone |
| `Presences.RunIsOutcome` | `internal/engine/adjudicator_peaceful.go:302-307` | What the rules leave after a fought turn meets the declarative description of joins, dispersions and arrivals used below |
| `Presences.OneOwnerPresent` | `internal/engine/movement.go:675-928` | Whoever ends the turn on a territory, by staying, winning, joining, keeping or sending troops, is of one player |
| `Presences.OneAnchor` | `internal/engine/movement.go:675-772` | Dispersions and fusing joins apart, at most one army ends on a territory |
| `Presences.HostAnchored` | `internal/engine/movement.go:634-651` | The army a join fuses into ends at the joined territory, under its own name, and is of the same player |
| `SettledCombat.SettledFought` | `internal/engine/contest.go:42-120` | The contest recorded for a settled turn leaves combat as the rules require: movers drive out what stood there, attacked armies give no peaceful order |
| `Movement.Field.MoveAttacks` | `internal/engine/movement.go:683-706` | Puts every army whose attack moved on its destination and no other, and finds none missing |
| `Movement.Field.MoveJoins` | `internal/engine/movement.go:707-730` | Puts every successful join on its destination and no other, and finds none missing |
| `Movement.Field.DisperseHostAt` | `internal/engine/movement.go:934-946` | The host of a group is the first army of its player on the territory that can take it in; none only if there is none |
| `Movement.Field.ApplyDispersion` | `internal/engine/movement.go:774-928` | Takes an army off the board and puts its troops back, one group per place it reaches: the army's name goes to the first target served if that is the first of the order or no troop is left, else it stays on the origin, unless an army of its player was there to take the group in; every other group is taken in by the first army able to host it or gets a fresh name; nothing else changes, allies that had arrived on its origin included, and every tally changes by exactly the troops sent |
| `Movement.Field.FuseJoin` | `internal/engine/movement.go:737-769` | Merging a join into its host changes no tally and removes only the joining army |
| `Movement.Field.ExecuteNormalMovements` | `internal/engine/movement.go:675-772` | The board is that of the attacks and joins, split army by army in the order of their names, with the joins then merged: no army is missing and no strength inconsistent; no two armies share a territory, each is an army of the turn or has a fresh name, a dispersion's name is where its order leaves it, and every tally equals what the orders sent |
| `Movement.Field.AloneUnhosted` | `internal/engine/movement.go:934-946` | Where no other army of the player ends with troops or starts a dispersion, no army can take in a group, so the dispersing army keeps its name there |
| `Movement.RebuildOccupancy` | `internal/engine/indexes.go:342-366` | Errs if and only if two armies share a territory; else the index and the armies are inverse |
| `Execution.ExecuteMovements` | `internal/engine/movement.go:38-56` | From a settled turn, record, rules, movements and index in sequence never reach the multiple-armies error |
| `BoardEquation.ArmyIsWorth` | `internal/engine/movement.go:675-928` | Every army on the board has exactly the troops that the attacks, joins, stays and served targets of its player take to its place |
| `BoardEquation.TroopsStand` | `internal/engine/movement.go:675-928` | Wherever some troops of a player end, an army of that player stands |
| `Execution.TroopsConserved` | `internal/engine/movement.go:675-772` | Each player's troops after the movements are the troops of its armies that were not dislodged |
| `Execution.OriginEmptied` | `internal/engine/adjudicator_peaceful.go:216-257` | In a settled turn an origin is emptied if and only if its departure was settled or its dispersion ended with no troop, targets unresolved and its origin not reached; Overdrafts says which orders can end so |
| `Overdrafts.DeparturesEmptyOrigins` | `internal/engine/adjudicator_peaceful.go:216-257` | Unless the order is overdrawn, in every prepared consistent turn the origin is emptied if and only if its departure was settled; joins, looping dispersions, those with a troop for every target and those that name their origin early are never overdrawn |
| `Overdrafts.KeptUnlessOverdrawn` | `internal/engine/movement.go:366-430` | For an order without repeated targets, or whose nobles go to targets served first: every turn with it empties its origin exactly when it departs, if and only if it is not overdrawn |
| `Overdrafts.OverdrawnWithoutNobles` | `internal/engine/movement.go:366-430` | Without nobles an order is overdrawn exactly when it does not loop and names more targets than troops, its origin not among the first |
| `Overdrafts.EmptiedWithoutDeparting` | `internal/engine/movement.go:366-386` | Whenever, with some territories held by others, an order spends every troop and leaves targets out, its army is gone and no departure was settled |
| `Overdrafts.OverstretchedFails` | `internal/engine/movement.go:366-386` | One troop, two free targets: overdrawn, and in every consistent resolution the origin is emptied with no departure settled |
| `Retreats.FirstFree` | `internal/engine/movement.go:1468-1549` | The first unclaimed place of a sorted bucket is the best of the unclaimed ones |
| `Retreats.FirstUnclaimed` | `internal/engine/movement.go:1422-1431` | Scanning a bucket in order for an unclaimed place finds the nearest to a settlement, ties by name, among the unclaimed |
| `Retreats.PlanRetreats` | `internal/engine/movement.go:1484-1549` | Each army chooses after those before it, and the claims counted are those made |
| `Retreats.RelocationFacts` | `internal/engine/movement.go:1376-1420` | An army that relocates goes to an empty neighbour of its origin, not its attacker's origin, claimed by nobody else |
| `Retreats.RelocationsApart` | `internal/engine/movement.go:1597-1615` | Two armies that relocate never go to one place |
| `Retreats.AbsorbedFacts` | `internal/engine/movement.go:1438-1466` | An army merges only if every empty place open to it was claimed before, into the first of its player's armies next to its origin |
| `Retreats.FallbackCollides` | `internal/engine/movement.go:1484-1549` | A fallback always destroys all the armies that claim it |
| `Retreats.DestroyedIff` | `internal/engine/movement.go:1484-1549` | An army is destroyed exactly when it had nowhere to go, fell back, or a later army fell back on its place |
| `RetreatOrder.ChoiceRight` | `internal/engine/movement.go:1376-1549` | Each dislodged army turns to its own land not taken before, only then to other vacant land neither attacked nor blocked by a castle, only then to an army of its player, only then to land already taken; the nearest land to a settlement, ties by name, and the best host each time; nowhere only if there is none of these |
| `RetreatOrder.RelocatesInOrder` | `internal/engine/movement.go:1494-1515` | An army relocates off its player's land only if all of it around was taken, and then to the nearest untaken place that is neither attacked nor blocked |
| `RetreatOrder.SettlesIff` | `internal/engine/movement.go:1494-1530` | An army settles exactly when some place open to it is not taken, and merges exactly when none is and an army of its player is around |
| `ContestRead.MapIs` | `internal/engine/movement.go:1376-1420` | The retreats read the board the movements left, and as attacked exactly the targets of the attacks that stand |
| `Retreats.ExecuteRetreats` | `internal/engine/movement.go:1468-1624` | Armies on the map stay, each dislodged army has its fate, and occupancy stays one army a place |
| `TurnRetreats.EntriesAre` | `internal/engine/movement.go:1473-1482` | The armies that retreat are those decided dislodged, each once, by origin, each knowing where the attack that drove it out came from |
| `TurnRetreats.RetreatDislodged` | `internal/engine/movement.go:38-56` | From the board a settled turn's movements leave, the retreats move no army of the board and no place is held twice |
| `Nearest.Closest` | `internal/engine/prosperity.go:205-239` | Returns a matching territory at the least number of steps, the first by name among those, and none only if none can be reached |
| `Nearest.WalkIff` | `internal/engine/prosperity.go:205-239` | The territories within n steps are exactly those a walk of at most n steps leads to |
| `SortedIds.AscendingUnique` | `internal/engine/indexes.go:548-564` | Sorted keys are one sequence: no resolution depends on the iteration order of a map |
| `Alliances.AllianceWeight` | `internal/engine/alliance.go:76-95` | A weight for exactly the active alliances: the weaker spouse's, plus a bonus for each other alliance of the two houses |
| `AllianceRead.WeightIs` | `internal/engine/alliance.go:46-95` | The weight of an alliance is the lower of its spouses' ranks plus the bonus for each other active alliance between the same houses |
| `Alliances.AllButOne` | `internal/engine/alliance.go:76-95` | When marriages are recorded once, the others are the alliances of the two houses less one |
| `Alliances.HousesShareBonus` | `internal/engine/alliance.go:76-95` | All alliances of two houses count the same alliances, however the spouses are ordered |
| `Alliances.ListAlliances` | `internal/engine/alliance.go:135-152` | The candidates are exactly the active alliances between two houses, as recorded, with their weights |
| `Alliances.SortCandidates` | `internal/engine/alliance.go:152-157` | A stable order by weight descending, then oldest, then first recorded |
| `Alliances.ActiveHeads` | `internal/engine/alliance.go:135-170` | The heads are stable: symmetric, and every alliance is a head or has a house whose head precedes it; and no other assignment is |
| `AllianceRead.HeadIff` | `internal/engine/alliance.go:135-170` | An alliance heads both its houses exactly when none that heads one of them is heavier, or as heavy and older, or recorded first |
| `Alliances.StableUnique` | `internal/engine/alliance.go:129-134` | There is only one stable assignment of heads |
| `Alliances.MarriageCategory` | `internal/engine/alliance.go:111-123` | Classifies exactly the active alliances; one is head exactly when the stable assignment makes it head of its houses |
| `Alliances.OneHouseSuffices` | `internal/engine/alliance.go:129-134` | A marriage is the head of both its houses or of neither |
| `NobleDecks.NobleDeckSize` | `internal/engine/noble_deck.go:24-45` | The largest size that leaves a noble and a name for every noble card, zero if none does, with one dignity in so many cards and one claim card in twice as many; the sexes differ by at most one card and the odd one goes where asked |
| `DeckRead.SharesAre` | `internal/engine/noble_deck.go:24-45` | Dignities are one card in as many as there are other players, four at least, claim cards one in twice as many, and one of each at least |
| `DeckRead.FeasibleIs` | `internal/engine/noble_deck.go:24-45` | A size is feasible exactly when nobles are left and each sex has names for its half, the odd card on the sex named |
| `NobleDecks.Deck.constructor` | `internal/engine/noble_deck.go:52-162` | A new deck has every card once, in the draw pile |
| `NobleDecks.Deck.DrawInto` | `internal/engine/noble_deck.go:210-231` | Draws the top card, after taking back the shuffled discard pile if the draw pile is empty; fails exactly when both are; every card stays in exactly one place |
| `NobleDecks.Deck.Reshuffle` | `internal/engine/noble_deck.go:210-231` | The discard pile becomes the draw pile, no card lost or doubled |
| `NobleDecks.Deck.ConsumeNobleCard` | `internal/engine/winter_noble_deck_orders.go:169-175` | Moves one card from a hand to the played list; every card stays in exactly one place |
| `NobleDecks.Deck.DiscardHandCard` | `internal/engine/winter_noble_deck_orders.go:180-186` | Moves one card from a hand to the discard pile; every card stays in exactly one place |
| `NobleDecks.Deck.RemoveDignity` | `internal/engine/noble_deck.go:236-252` | Discards the first played card that confers the dignity on the noble, or changes nothing if none does |
| `NobleDecks.Deck.AddReplacementNobleCard` | `internal/engine/noble_deck.go:284-296` | Adds a card under a fresh identifier and the first name of the sex, one no card bears or bore; nothing if no name is left |
| `NobleDecks.Deck.ReleaseNobleCards` | `internal/engine/noble_deck.go:260-280` | Settles exactly the cards played on the noble, in order: dignities are discarded, its noble card leaves the deck and is replaced; every card stays in exactly one place |
| `DeckRead.SettledInOrder` | `internal/engine/noble_deck.go:260-296` | The cards played on the noble are settled one by one in the order played: a noble card leaves the deck, and a card of its sex under the first such name left and a new identifier goes to the discard pile while names last; any other card is discarded |
| `DeckRead.KeptInOrder` | `internal/engine/noble_deck.go:260-280` | The cards played on other nobles stay, all of them and in order |
| `NobleDecks.FreshId` | `internal/engine/noble_deck.go:299-308` | The next identifier is no card's |
| `NobleDecks.NextNobleCardId` | `internal/engine/noble_deck.go:299-308` | Above every identifier in use, and the least such |
| `Elections.OpenWinterElections` | `internal/engine/election.go:141-188` | Opens a bishopric exactly for the listed regions fully held and without bishop, in the order listed, then the conclave and the throne exactly when vacant and called for, each once, with their majorities |
| `ElectionRead.OpeningsAsk` | `internal/engine/election.go:141-188` | The conclave opens for a vacant see and two cardinals, the throne when vacant with three voices and two bishops' or a cardinal's |
| `Elections.StandsIff` | `internal/engine/election.go:491-513` | A noble stands exactly when it is the first its player files among its own eligible nobles |
| `Elections.SupportsIff` | `internal/engine/election.go:515-547` | A player counts for exactly the candidate of its first valid vote |
| `Elections.Election.FileCandidacy` | `internal/engine/election.go:491-513` | Accepts a player's own eligible noble once; refuses anything else and changes nothing then |
| `Elections.Election.CastVote` | `internal/engine/election.go:515-547` | Adds all the player's voices, and its clergy's where an anointment counts, to one candidate, once; refuses otherwise and changes nothing |
| `Elections.Election.CastWithinVoices` | `internal/engine/election.go:515-547` | At any moment of an election the voices cast never exceed those the players have |
| `Elections.Election.Conclude` | `internal/engine/election.go:555-607` | Elects a candidate if and only if it has strictly more voices than every other, enough of them, and the blessing required |
| `Elections.HoldElection` | `internal/engine/election.go:454-489` | The winner of an election is the one noble its ballots elect, described from the ballots alone |
| `ElectionRead.ElectedIs` | `internal/engine/election.go:491-607` | A noble is elected exactly when it is the first eligible noble its player files, has strictly more of the voices of the players that first vote for it than any other candidate, as many as the election asks, and, for the crown, the voice of high clergy or two of bishops among them |
| `ElectionRead.EligibleIs` | `internal/engine/election.go:222-350` | Who may stand for a bishopric, the tiara and the crown, by offices held and titles already won this winter |
| `Elections.WinnerCompatible` | `internal/engine/election.go:222-268` | Whoever may still win a pending election respects all titles won before: no second bishopric, no second bishop, no crowned pope |
| `Elections.ResolveWinterElections` | `internal/engine/election.go:454-489` | The titles won are those of each election counted with the titles won before it, and pairwise compatible |
| `Elections.InvestedSound` | `internal/engine/election.go:612-651` | Conferring one more title keeps one bishopric per noble, one bishop per region and king and pope distinct |
| `Elections.InvestWinterTitles` | `internal/engine/election.go:612-651` | Confers exactly the titles whose noble is in play and not excommunicated, the crown only if no king is left, and the realm stays sound |

## Left out

- ContestRecords.ContestRecord.ApplyOutcomes: does not model records with an outcome before the contest nor the flags cleared on supports, voided supports, stand-off and contender lists, which are reports of the combat.
- Retreats.ExecuteRetreats: does not model the sizes after a merge, which the engine updates through a reference that may name an older copy of the army list; places and fates are exact. The distance to the nearest controlled settlement is a parameter.
- Elections.OpenWinterElections: the counts of voices and titles that call the royal election, and which regions are fully held, are inputs; the denominator of the conclave is that of the opening, and the count takes whatever denominator the opening carries.
- Elections.InvestWinterTitles: the return of orphan fiefs and the choice of a queen at the coronation are not modelled.
- NobleDecks.Deck.AddReplacementNobleCard: an identifier is fresh among the cards of the deck; like the engine's, it may be one that a removed card had.
- NobleDecks.Deck.DrawInto: the shuffle is any permutation; seeds are left out.
- NobleDecks.Deck.constructor: the cards and the shuffled pile are inputs; the naming of cards from assets is left out.
- Movement.Field.ExecuteNormalMovements: nobles riding along, chains of orders and their replacement after a fusion are left out.
- Overdrafts.KeptUnlessOverdrawn: for an overdrawn order that repeats a target and sends nobles past the targets served first, does not say whether some turn breaks the claim; whether the troops can reach all the nobles' targets then depends on how many times each target is named and on the order in which occupied ones are vacated.
- Intentions.Intents.EnumerateIntentions: does not enumerate a dispersion pending from an earlier turn.
- Movement.Field.ApplyDispersion: nobles and chains of the new groups are left out; the contract says that each new group gets one of the new names, not which of them.
- Movement.Field.FuseJoin: nobles and chains carried into the host are left out.
- Dispersions still pending from an earlier turn and carried by another army: every dispersion is its own army's order. The loop flag of an order, which changes how nobles left over are treated, is kept.
- Static validation of orders and the map of regions: the orders given to `Intents` have been validated, and the territories struck by bad weather are given.
- Pillage, transfer, supply, famine and prosperity changes: they decide no movement.
- Succession lines, marriages ended by death, dignities that void an alliance, voting titles: sets and numbers given to the alliance and election models.
- Castles and control of territories enter combat and retreats as sets and maps fixed for the turn; noble command and fortification bonuses are natural numbers per army and territory.
- Events, reports, privacy views, clones and JSON: field copying.
