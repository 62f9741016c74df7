# Capital autopilot: compiler, ledger and draw workflow, proved

A Dafny model of the three parts of the repository that have to be right:

- **The QUBO compiler.** A draw-scheduling problem (one window or deferral per
  draw, strict precedence, window caps in minor units, crowding costs) becomes a
  quadratic over bits and an Ising form. The model proves that the translation
  preserves meaning: ground states are optimal feasible schedules, at their cost.
- **The audit ledger.** Events are printed as canonical JSON, hashed and chained
  per tenant. The model proves that the printing is unambiguous, that chains
  verify after any run of transactions, and what a verified chain rules out.
- **The draw workflow.** A draw moves through a state machine from draft to
  reconciled settlement, every operation logging an event in the same
  transaction as the rows it changes. The model proves, for every run of
  operations by any users under any policy packs, that the log replays the
  state, that approvals are bound to terms and quorum, that evidence stays
  frozen, that duties stay separate, and that money is settled once.

## How it is built

`QuadraticForm`, `QuboBuilder`, `Artifact`, `PairPrune`, `Slack`, `Scenario`,
`CompilerSpec` and `Compiler` hold the compiler: classes and loops as in the
source, each proved against a specification function. `Decomposition`,
`PenaltyTerms`, `VariableTable`, `Representation`, `Meaning`, `Optimality`,
`EnergyTerms`, `KeyCollisions` and `OrderIndependence` say what the specification
means. `CollidingScenario` and `AmbiguousOrder` are scenarios that show where it
falls short; `SmallForms` helps to evaluate them. `GateCodes`, `BudgetChoice`,
`ArtifactRecords` and `CompileOutcome` read everything an artifact or a refusal
holds off the scenario alone, without the steps that produced it.

`CanonicalJson` holds both printers and a reader, `Ledger` the per-tenant chain
and its store, `EventStore` the in-memory store. `CanonicalText` and
`EventRecords` say what the printed and hashed texts are, character by character
and field by field.

`DrawMachine`, `ConfirmationCsv` and `Workflow` specify the operations on the
tables of one tenant; `DrawService` is the class that performs them step by
step, with rollback. `WorkflowChanges` says what an accepted operation changes;
`WorkflowLog`, `WorkflowEvidence`, `WorkflowApproval` and `WorkflowSettlement`
prove four invariants over those changes; `WorkflowRuns` and `WorkflowHistory`
carry them over all runs. `WorkflowGuarantees`, `WorkflowAcceptance` and
`DraftKeys` hold the results for a reader. `WorkflowSuccess` says what it takes
for operations to succeed, and `SettledRun` is a run from the empty tables to a
reconciled draw, so those results are about something. `ManifestCommitment`,
`RowVerdicts` and `DualEntry` say what frozen evidence commits to and what an
import makes of each row; `OperationRecords`, `ImportRecords` and `EventTexts`
what each operation writes and logs, and `OperationErrors` what each error tells.
`EventPayloads`, `CsvRoundTrip` and `CsvReading` serve them.

SHA-256 is a function parameter. Results that need it to have no collisions say
so (`CollisionFree`); the others hold for every function. Clock readings, ids
and the rows the workflow only reads (deals, accounts, roles, holds, sanctions
results) are inputs of each operation, so the results hold for all of them.
A failed operation has no resulting state in the specification; the class
restores its tables, and its contracts say that it does.

## Where the code departs from what it says

- `backend/workflow/draw-service.ts:8` promises that every operation replays
  under a used key. Creating a draft only looks for a draw with the key:
  `DraftKeys.UsedKeyCanCreate` is a run in which a used key creates a second
  draft, and `WorkflowGuarantees.CreateReplaysExactly` says when it replays.
  Staging a CSV only looks for the batch
  (`WorkflowGuarantees.StageReplaysExactly`), and an import under a used key is
  refused, not replayed; neither changes anything when repeated
  (`WorkflowGuarantees.RepeatChangesNothing`).
- The compiler looks bits up by ids joined with `|`, which the validator allows
  inside ids. `KeyCollisions.FaithfulExactlyWhenKeysDistinct` gives the exact
  condition for a faithful artifact; ids without `|` meet it.
  `CollidingScenario.AcceptedAndMisleading` is a scenario that compiles without
  meeting it.
- Precedence pairs are sorted by ids joined with `|` as well. Where two different
  pairs share a key, the order in which they are listed shows in the artifact,
  in its constraint list and nowhere else:
  `OrderIndependence.OrderFixedExactlyWhenUnambiguous`. `AmbiguousOrder.OrderShows`
  is a scenario that compiles to different artifacts in its two orders.
- The chain's head row is described as part of re-verification, but is not
  looked at once a ledger is empty: `Ledger.EmptiedLedgerVerifies`.
- The in-memory store links an event by the aggregate fields the caller
  supplied, and stores defaults where they were left out. Two events of one draw,
  one appended with its aggregate type and one without, do not verify as that
  draw's chain; both with or both without do (`EventStoring.AppendTwo`).
  `EventStoring.VerifiesExactlyWhenOneChain` gives the exact condition for any
  history.

## Model

| member | source | states |
|---|---|---|
| QuadraticForm.StepRaisesEnergy | packages/quantum-lab/qubo/compiler.ts:63-76 | each update of the builder raises the energy of every bitstring by exactly the added monomial, a pair with itself counting as linear |
| QuadraticForm.StepsRaiseEnergy | packages/quantum-lab/qubo/compiler.ts:63-87 | any sequence of updates raises every bitstring's energy by the sum of its monomials |
| QuadraticForm.GrowKeepsEnergy | packages/quantum-lab/qubo/compiler.ts:58-61 | a new bit changes no energy |
| QuadraticForm.SquareStepsEnergy | packages/quantum-lab/qubo/compiler.ts:79-87 | the expanded square evaluates, on every bitstring, to P times the squared difference of load and target |
| QuboBuilding.QuboBuilder.constructor | packages/quantum-lab/qubo/compiler.ts:52-56 | an empty builder holds the empty form |
| QuboBuilding.QuboBuilder.AddBit | packages/quantum-lab/qubo/compiler.ts:58-61 | appends a zero diagonal entry and returns its index |
| QuboBuilding.QuboBuilder.AddLinear | packages/quantum-lab/qubo/compiler.ts:63-65 | adds to one diagonal entry in place |
| QuboBuilding.QuboBuilder.AddPair | packages/quantum-lab/qubo/compiler.ts:67-76 | merges a pair under its ordered key, or into the diagonal for a bit with itself |
| QuboBuilding.QuboBuilder.AddSquaredLinear | packages/quantum-lab/qubo/compiler.ts:79-87 | in place, the steps whose energy is the weighted square |
| QuboBuilding.QuboBuilder.Offdiagonal | packages/quantum-lab/qubo/compiler.ts:90-98 | halved non-zero pair coefficients, strictly sorted by index pair: the unique such list |
| Artifact.OffdiagIs | packages/quantum-lab/qubo/compiler.ts:90-98 | the listed entries are exactly the non-zero pair coefficients, halved, each place once, in order |
| Artifact.EnergyDeterminesMatrix | packages/quantum-lab/qubo/compiler.ts:328-330 | two forms of equal size and equal energy on every bitstring assemble to the same matrix |
| Artifact.AssembleKeepsEnergy | packages/quantum-lab/qubo/compiler.ts:328-330 | dropping zeros, halving and sorting keeps every bitstring's energy |
| Artifact.EvaluateQubo | packages/quantum-lab/qubo/energy.ts:9-19 | the loop returns the energy of the matrix, or a length error |
| Artifact.EvaluateIsing | packages/quantum-lab/qubo/energy.ts:22-30 | the loop returns the energy of the Ising form, or a length error |
| Artifact.IsingRefinesQubo | packages/quantum-lab/qubo/compiler.ts:333-342 | Ising energy of the spins of x equals QUBO energy of x, for every bitstring |
| Artifact.IsingIsQuarterExact | packages/quantum-lab/qubo/compiler.ts:344-351 | four times every field, coupling and the offset is an integer |
| PairPruning.PairPruneSearch.Dfs | packages/quantum-lab/qubo/compiler.ts:119-130 | the search with its pushes and pops ends, restores the chosen list, and returns verdict and node count of the search tree |
| PairPruning.ExactMeansPairsDecide | packages/quantum-lab/qubo/compiler.ts:115-132 | if the search says exact, then for every selection: total within the cap if and only if every pair is |
| PairPruning.InexactMeansPairsMislead | packages/quantum-lab/qubo/compiler.ts:115-132 | if it says inexact, there is a pairwise-fitting set of three or more that exceeds the cap |
| PairPruning.ExhaustedOnlyPastLimit | packages/quantum-lab/qubo/compiler.ts:120 | it gives up only after more nodes than the budget |
| PairPruning.ExactExactly | packages/quantum-lab/qubo/compiler.ts:115-132 | it says exact if and only if there are at most 200000 pairwise-fitting sets of members and each of them fits the cap |
| Slack.ComputeGcd | packages/quantum-lab/qubo/compiler.ts:105-108 | the loop computes the greatest common divisor |
| Slack.GcdDividesBoth | packages/quantum-lab/qubo/compiler.ts:105-108 | that divisor divides both numbers |
| Slack.GcdIsGreatest | packages/quantum-lab/qubo/compiler.ts:105-108 | every common divisor divides it |
| Slack.UnitDivides | packages/quantum-lab/qubo/compiler.ts:282 | the unit divides every amount and the cap |
| Slack.UnitIsGreatest | packages/quantum-lab/qubo/compiler.ts:282 | every common divisor of the amounts and the cap divides the unit |
| Slack.FillingSlack | packages/quantum-lab/qubo/compiler.ts:283-301 | a selection within the cap has a slack assignment of the compiled width with zero residual |
| Slack.SlackExact | packages/quantum-lab/qubo/compiler.ts:283-301 | and no other slack assignment has zero residual |
| Slack.OverCapResidual | packages/quantum-lab/qubo/compiler.ts:283-301 | a selection over the cap has a squared residual of at least one for every slack assignment |
| Slack.UnitNeedsFewestBits | packages/quantum-lab/qubo/compiler.ts:282-284 | no other common divisor needs fewer slack bits |
| Scenario.ValidateScenario | packages/quantum-lab/qubo/validate.ts:152-287 | the pushing, stateful checks produce the specified refusals in order, one per bad field, reference and delay entry |
| Scenario.ValidatePenaltyPolicy | packages/quantum-lab/qubo/validate.ts:125-150 | the policy checks produce the specified refusals in order |
| Scenario.GatePassesExactlyValid | packages/quantum-lab/qubo/compiler.ts:139-140 | no refusals if and only if policy and scenario satisfy a declarative validity: unique known ids, positive money, known references |
| GateCodes.ScenarioCodes | packages/quantum-lab/qubo/validate.ts:152-287 | a code is given if and only if one of the things it stands for is wrong: a missing field, a live policy marker, a repeated id, an unknown reference, a bad amount, weight or pair |
| GateCodes.PolicyCodes | packages/quantum-lab/qubo/validate.ts:125-150 | the policy's one code is given if and only if its id, a penalty or the slack allowance is bad |
| Compiler.CompileQubo | packages/quantum-lab/qubo/compiler.ts:138-401 | the phase-by-phase compilation over a mutable builder returns exactly the specified artifact or refusals |
| Compiler.NameBits | packages/quantum-lab/qubo/compiler.ts:161-174 | the loop names the live bits, deferral bits and pruned pairs as specified |
| Compiler.AddObjective | packages/quantum-lab/qubo/compiler.ts:177-189 | the loop adds the economic coefficients and accumulates the energy swing |
| Compiler.AddConcentration | packages/quantum-lab/qubo/compiler.ts:193-202 | the loop adds crowding couplings and their swing |
| Compiler.AddCardinality | packages/quantum-lab/qubo/compiler.ts:205-212 | the loop adds one squared sum per draw and records the constraint |
| Compiler.AddPrecedence | packages/quantum-lab/qubo/compiler.ts:218-242 | the loops add a penalty per forbidden window pair and record the constraint |
| Compiler.AddBudgets | packages/quantum-lab/qubo/compiler.ts:248-309 | per window none, pair or slack encoding, or a refusal, as specified |
| Compiler.CheckFloor | packages/quantum-lab/qubo/compiler.ts:314-325 | one refusal per constraint kind whose penalty is not above the swing |
| Compiler.AssembleIsing | packages/quantum-lab/qubo/compiler.ts:334-342 | the loop yields the Ising form of the matrix |
| BudgetChoice.EncodingsAnswer | packages/quantum-lab/qubo/compiler.ts:248-301 | for every artifact and window, read off the draws that find a bit for it: no budget if and only if their amounts sum to at most the cap; pair pruning if and only if they exceed it and, within the node budget, pairs decide the cap; otherwise slack, in the greatest common unit and with the cap's binary digits |
| BudgetChoice.SlackRefusalsAnswer | packages/quantum-lab/qubo/compiler.ts:279-310 | a valid scenario is refused for a window's slack if and only if the window needs slack and in every common unit its cap has more binary digits than allowed; then for all such windows, in order |
| BudgetChoice.FindsBitAlone | packages/quantum-lab/qubo/compiler.ts:161-180 | without shared keys a draw finds a bit for a window if and only if it is eligible and fits the cap |
| BudgetChoice.SortedIsById | packages/quantum-lab/qubo/compiler.ts:145 | the compiler's draw order is the only one in which every id comes before the next by its first differing character |
| ArtifactRecords.VariablesReadable | packages/quantum-lab/qubo/compiler.ts:156-174 | also where keys collide, each lookup finds the last placement a reader of the symbol table finds under the key |
| ArtifactRecords.DelayListed | packages/quantum-lab/qubo/compiler.ts:182 | the delay cost of a window is the first one listed, or zero |
| CompileOutcome.ArtifactIs | packages/quantum-lab/qubo/compiler.ts:151-401 | an artifact's symbols, pruned pairs with reasons, swing, and constraint records with ids, penalties and bits, all read off the scenario |
| CompileOutcome.FloorRefusalsAnswer | packages/quantum-lab/qubo/compiler.ts:312-325 | a valid scenario within its slack allowance is refused for a constraint kind if and only if such a constraint is in force and its penalty is not above the sum of all absolute costs and weights |
| CompileOutcome.CompilesExactly | packages/quantum-lab/qubo/compiler.ts:309-358 | it compiles if and only if no window needs too much slack, every penalty in force is above that sum, and every number of matrix and Ising form is an exact double |
| CompileOutcome.GateComesFirst | packages/quantum-lab/qubo/compiler.ts:139-140 | anything not valid is refused with the gate's own refusals and nothing else is looked at |
| EnergyTerms.EnergyDecomposes | packages/quantum-lab/qubo/compiler.ts:176-308 | for every bitstring, feasible or not: energy is the placement costs, deferral costs and crowding weights of the bits that are on, plus the cardinality penalty times the sum over draws of (slots on - 1) squared, the precedence penalty times the number of inverted window pairs, and the budget penalty times the over-cap pairs on or the squared residual of each window |
| EnergyTerms.PrecedenceTotal | packages/quantum-lab/qubo/compiler.ts:214-231 | the precedence terms charge the penalty once for every window pair in which after is placed no later than before |
| EnergyTerms.CardinalityTotal | packages/quantum-lab/qubo/compiler.ts:205-212 | the cardinality terms charge the squared slot excess of every draw |
| EnergyTerms.WindowTotal | packages/quantum-lab/qubo/compiler.ts:246-308 | a window's terms charge nothing, its over-cap pairs that are on, or its squared residual, as its encoding says |
| Meaning.ArtifactDecomposes | packages/quantum-lab/qubo/compiler.ts:176-360 | the matrix of every returned artifact has that energy on every bitstring |
| PenaltyTerms.CardinalityMeaning | packages/quantum-lab/qubo/compiler.ts:204-212 | cardinality energy is zero exactly when each draw has one slot, otherwise at least the penalty |
| PenaltyTerms.PrecedenceMeaning | packages/quantum-lab/qubo/compiler.ts:214-242 | precedence energy is zero exactly when no forbidden pair is on, otherwise at least the penalty |
| PenaltyTerms.WindowMeaning | packages/quantum-lab/qubo/compiler.ts:248-309 | a window's budget energy is zero only within its cap, and otherwise at least the penalty, for all three encodings |
| VariableTable.VariablesFormTable | packages/quantum-lab/qubo/compiler.ts:161-174 | with distinct keys the named bits form a table: one bit per live pair and per draw, all different |
| VariableTable.LookupFindsPair | packages/quantum-lab/qubo/compiler.ts:170-180 | with distinct keys a lookup finds a bit exactly for live pairs, and the right one |
| VariableTable.NoBarKeysDistinct | packages/quantum-lab/qubo/compiler.ts:151-170 | ids without the separator make all joined keys distinct |
| Representation.RepresentsIsDecodes | packages/quantum-lab/qubo/compiler.ts:161-174 | the bits that stand for a schedule are exactly the x and z bits a reader of the symbol table finds on |
| Meaning.PenaltyGap | packages/quantum-lab/qubo/compiler.ts:312-325 | a bitstring with any penalty has strictly more energy than every bitstring without one |
| Optimality.PenaltyFreeIsFeasible | packages/quantum-lab/qubo/compiler.ts:204-308 | a penalty-free bitstring decodes to a feasible schedule and its energy is that schedule's cost |
| Optimality.DecodedEnergy | packages/quantum-lab/qubo/compiler.ts:176-308 | a bitstring that decodes has at least its schedule's cost, with equality exactly for feasible schedules with filled slack |
| Optimality.FeasibleSchedulesEncoded | packages/quantum-lab/qubo/compiler.ts:161-308 | every feasible schedule is encoded by a penalty-free bitstring at its cost |
| Optimality.DeferralIsFeasible | packages/quantum-lab/qubo/compiler.ts:173-189 | deferring every draw is feasible, so penalty-free bitstrings exist |
| Optimality.InfeasibleCostsMore | packages/quantum-lab/qubo/compiler.ts:312-325 | a bitstring that decodes to no feasible schedule costs more than every feasible schedule |
| Optimality.MeaningPreserved | packages/quantum-lab/qubo/compiler.ts:138-401 | every bitstring of least energy decodes to a feasible schedule of least cost, at that cost |
| Optimality.OptimaAreGroundStates | packages/quantum-lab/qubo/compiler.ts:138-401 | every optimal schedule is decoded from some bitstring of least energy |
| Optimality.GroundStateExists | packages/quantum-lab/qubo/compiler.ts:333-360 | every returned artifact has a bitstring of least energy |
| Optimality.LeastEnergyIsLeastCost | packages/quantum-lab/qubo/compiler.ts:151-360 | the least energy is the least cost of a feasible schedule; both are attained, by a bitstring that decodes to the schedule, and every other minimum has the same value |
| Optimality.PrunedNeverFeasible | packages/quantum-lab/qubo/compiler.ts:165-168 | no feasible schedule uses a pruned variable |
| KeyCollisions.FaithfulExactlyWhenKeysDistinct | packages/quantum-lab/qubo/compiler.ts:151-180 | a compiled artifact encodes every feasible schedule at its cost if and only if no live pair shares its joined key |
| KeyCollisions.CollisionsAreUnfaithful | packages/quantum-lab/qubo/compiler.ts:151-180 | a shared key always loses some feasible schedule or its cost |
| KeyCollisions.BarsCanCollide | packages/quantum-lab/qubo/compiler.ts:170 | concrete ids with a separator in them that collide |
| CollidingScenario.AcceptedAndMisleading | packages/quantum-lab/qubo/compiler.ts:151-219 | a concrete scenario with such ids passes the gate and compiles, and a least-energy bitstring of its artifact decodes to no schedule |
| CollidingScenario.EnergyIs | packages/quantum-lab/qubo/compiler.ts:176-223 | the energy of every bitstring of that artifact: one shared bit earns both draws' utility |
| OrderIndependence.CompileIgnoresOrder | packages/quantum-lab/qubo/compiler.ts:89-308 | however draws, precedence and concentration pairs are reordered, the gate's verdict is the same, and past it the result is, but for the order of the constraint list |
| OrderIndependence.OrderFixedExactlyWhenUnambiguous | packages/quantum-lab/qubo/compiler.ts:214-241 | an artifact is the same for every order of its scenario if and only if no two different precedence pairs that forbid something share a joined key |
| AmbiguousOrder.OrderShows | packages/quantum-lab/qubo/compiler.ts:214-241 | a concrete scenario that compiles in both orders of its two precedence pairs, to different artifacts |
| OrderIndependence.BitesExactly | packages/quantum-lab/qubo/compiler.ts:218-241 | a precedence pair gets a constraint if and only if some window pair with bits for both sides is inverted |
| OrderIndependence.PrecedenceDetermined | packages/quantum-lab/qubo/compiler.ts:215-217 | ids without the separator leave no two precedence pairs with one key |
| OrderIndependence.ConcentrationPermuted | packages/quantum-lab/qubo/compiler.ts:190-202 | even duplicate pairs with different weights add up the same in every order |
| Ordering.StringLessExactly | backend/audit/event-store.ts:139 | one text sorts before another if and only if it is a proper prefix or has the smaller character where they first differ |
| Ordering.FirstDifferenceDecides | backend/audit/event-store.ts:139 | whatever comes before and after, the smaller of two different characters decides, and the shorter of a text and its extension comes first |
| Ordering.SortKeepsTies | packages/quantum-lab/qubo/compiler.ts:190-217 | sorting leaves elements with one key in the order they came in |
| CanonicalJson.ParsePrinted | backend/audit/pg-event-store.ts:75-77 | parsing the canonical text of a value gives the value back with keys in order: nothing else is lost |
| CanonicalJson.TextIsUnambiguous | backend/audit/event-store.ts:131-149 | two values print to the same text if and only if they are equal up to key order, at every level |
| CanonicalJson.NormalFormDecidesSame | backend/audit/event-store.ts:131-149 | sorting keys at every level decides that equality |
| CanonicalJson.ParseStringReads | backend/audit/event-store.ts:133-144 | quoting a string and reading it back gives the string, whatever follows |
| CanonicalText.ObjectPrints | backend/audit/event-store.ts:137-147 | an object prints, at every level, as its members in ascending order of key: quoted key, colon, value, separated by commas |
| CanonicalText.KeysCanAscend | backend/audit/event-store.ts:139 | distinct keys can always be put in that order |
| CanonicalText.ArrayPrints | backend/audit/event-store.ts:134-136 | an array prints as its items in order, an undefined one as nothing |
| CanonicalText.EscapesAre | backend/audit/event-store.ts:132-134 | which characters print as themselves between quotes, and how each other one is escaped |
| CanonicalJson.PrintersAgreeExactlyOnDefined | packages/quantum-lab/qubo/hash.ts:4-15 | the artifact's printer and the ledger's agree if and only if no object member is undefined |
| CanonicalText.ArtifactPrints | packages/quantum-lab/qubo/hash.ts:4-15 | on every value the artifact's printer prints what the ledger's prints once undefined members are dropped |
| Ledger.EnvelopeDetermined | backend/audit/event-store.ts:159-199 | the hashed text determines all seventeen fields of an event |
| Ledger.AppendKeepsSound | backend/audit/pg-event-store.ts:70-148 | an append keeps the chain linked with its head at its last event, and never rewrites an event |
| Ledger.TransactionKeepsSound | backend/audit/pg-event-store.ts:70-148 | a transaction, committed, refused or rolled back, does so for its tenant and leaves other tenants' chains as they were |
| Ledger.ChainsAlwaysVerify | backend/audit/pg-event-store.ts:174-217 | after any transactions of any tenants every chain verifies |
| Ledger.TamperEvident | backend/audit/pg-event-store.ts:174-217 | two non-empty chains that verify against one head row agree in length, every hashed field and every payload |
| Ledger.UnhashedFieldsAreFree | backend/audit/pg-event-store.ts:118-140 | receipt times and correlation ids can be changed without the chain failing to verify |
| Ledger.EmptiedLedgerVerifies | backend/audit/pg-event-store.ts:211 | an empty ledger verifies whatever its head row says |
| Ledger.HashesDistinct | migrations/0002_audit_event.sql:44-46 | in a linked chain no hash occurs twice, the predecessor of the first event included |
| Ledger.FreshAppendsAreUnique | migrations/0002_audit_event.sql:43-46 | on a sound chain a fresh event id is all an append needs to meet the uniqueness rules |
| Ledger.RepeatedAppendReplays | backend/audit/pg-event-store.ts:83-91 | appending again under the same key and type returns the first event and changes nothing |
| Ledger.AppendKeepsKeyedOnce | migrations/0002_audit_event.sql:48-49 | no key is recorded twice with one type |
| EventRecords.AppendedRowIs | backend/audit/pg-event-store.ts:70-148 | a row that is added carries every supplied field, the default of every field left out, id and times, comes next in the chain and hashes what it holds |
| EventRecords.AppendOutcome | backend/audit/pg-event-store.ts:70-91 | which appends are refused or answered with the first event of their key and type, in the order of the checks |
| EventRecords.EnvelopePrints | backend/audit/event-store.ts:159-199 | the text an event hash is taken of: the seventeen fields under their names, in key order |
| EventRecords.FaultsTell | backend/audit/pg-event-store.ts:181-207 | each fault of re-verification names the first thing wrong with an event, and none is named if and only if number, link, payload hash and event hash are right |
| Ledger.PgEventStore.constructor | backend/audit/pg-event-store.ts:67-68 | empty tables, all chains sound |
| Ledger.PgEventStore.Append | backend/audit/pg-event-store.ts:70-148 | table by table exactly the specified append; refusals and replays change nothing; every tenant's chain stays sound |
| Ledger.PgEventStore.Write | backend/audit/pg-event-store.ts:93-147 | inserts the row and advances the head by one, or rolls back an inserted head row |
| Ledger.PgEventStore.VerifyChain | backend/audit/pg-event-store.ts:174-217 | ok if and only if linked and head in agreement; otherwise names the first failing event and check, or the head |
| EventStoring.EventStore.constructor | backend/audit/event-store.ts:240-243 | an empty store, all chains verifying |
| EventStoring.EventStore.Append | backend/audit/event-store.ts:245-307 | appends one event with every supplied field, default, time and hash to the chain of the supplied aggregate, or replays the stored one; every chain keeps verifying and the replay table keeps exactly the keyed events |
| EventStoring.EventStore.VerifyChain | backend/audit/event-store.ts:329-357 | ok if and only if every event follows its predecessor and hashes as stored; names the first that does not |
| EventStoring.AggregatesVerify | backend/audit/event-store.ts:315-357 | a special case easy to see before appending: if every event named its aggregate, each aggregate's list of events verifies |
| EventStoring.AggregateIsChain | backend/audit/event-store.ts:232-238 | in that special case an aggregate's events are exactly one chain |
| EventStoring.VerifiesExactlyWhenOneChain | backend/audit/event-store.ts:232-357 | for every valid store: an aggregate's list verifies if and only if its events are the first ones linked under one key |
| EventStoring.AppendTwo | backend/audit/event-store.ts:232-357 | a run of two appends for one draw: the list verifies if and only if both named the aggregate type or neither did |
| DrawMachine.LogPassesThrough | backend/workflow/draw-request.ts:79-103 | a log that ends in a state was earlier in every state all paths to it go through |
| DrawMachine.NoReviewAfterInstruction | backend/workflow/draw-request.ts:79-103 | once a log was in SETTLEMENT_INSTRUCTED no later state is reviewed or approved |
| DrawMachine.StatusNameReads | backend/workflow/draw-request.ts:14-30 | a status can be read back from its name in the log |
| ConfirmationCsv.ParseConfirmationCsv | backend/workflow/draw-service.ts:174-189 | every parsed row has non-empty identifiers, 1 to 18 digits, a currency code and a date shape |
| CsvRoundTrip.WrittenReads | backend/workflow/draw-service.ts:162-189 | well-formed rows with trimmed fields free of commas and line feeds come back field by field from the text they are written as |
| CsvRoundTrip.ReadsExactlyWritable | backend/workflow/draw-service.ts:162-189 | some text parses to a list of rows if and only if the rows are such |
| CsvReading.ReadsExactly | backend/workflow/draw-service.ts:174-189 | a text is read as given rows if and only if its lines, but for blank ones, are the header and the rows' fields between commas, whatever space is around them |
| WorkflowChanges.CreateChanges | backend/workflow/draw-service.ts:223-279 | an accepted creation either finds a draw with the key or adds exactly one DRAFT row and one event |
| WorkflowChanges.UploadChanges | backend/workflow/draw-service.ts:285-331 | an accepted upload adds one document, next version, hashed from content, and one event, on a DRAFT only |
| WorkflowChanges.VerifyChanges | backend/workflow/draw-service.ts:333-354 | an accepted verification marks one document and logs it under someone other than the uploader |
| WorkflowChanges.SubmitChanges | backend/workflow/draw-service.ts:360-394 | an accepted submission by the requester freezes the current documents and a known policy, and logs one move |
| WorkflowChanges.EvaluateChanges | backend/workflow/draw-service.ts:400-429 | an accepted evaluation logs one move to UNDER_REVIEW and stores PASS exactly for a complete manifest |
| WorkflowChanges.ApproveChanges | backend/workflow/draw-service.ts:435-549 | an accepted approval adds one decision, and either nothing else or the move to APPROVED of a cleared draw |
| WorkflowChanges.InstructChanges | backend/workflow/draw-service.ts:555-593 | an accepted instruction copies the approved terms and logs one move |
| WorkflowChanges.StageChanges | backend/workflow/draw-service.ts:603-634 | an accepted staging finds the batch or adds it with one event |
| WorkflowChanges.ExceptionChanges | backend/workflow/draw-service.ts:694-744 | an exception row adds one record and one break event, and a confirmation only for a settlement never instructed |
| WorkflowChanges.SettleChanges | backend/workflow/draw-service.ts:754-795 | a settled row logs two moves, adds confirmation and record, and saves RECONCILED exactly without mismatches |
| WorkflowLog.RowKeyInjective | backend/workflow/draw-service.ts:682 | batch, row number and purpose can be read back from an import key |
| WorkflowLog.UnusedBatchIsUnprocessed | backend/workflow/draw-service.ts:662-682 | under an unused batch key no row event can be taken for a repetition |
| WorkflowLog.MoveKeepsLog | backend/workflow/draw-request.ts:174-245 | a logged and saved move keeps the log a path to every draw's status |
| WorkflowLog.SettleKeepsLog | backend/workflow/draw-service.ts:754-795 | both moves of a settled row are logged, none swallowed as a replay |
| WorkflowLog.ExceptionKeepsLog | backend/workflow/draw-service.ts:694-718 | a break event moves no draw and uses up the row's key |
| WorkflowEvidence.OnlyLatestUnsuperseded | backend/workflow/draw-service.ts:305-310 | with contiguous versions, the unsuperseded document of a type is the one with the highest version |
| WorkflowEvidence.UploadKeepsEvidence | backend/workflow/draw-service.ts:285-331 | an upload keeps versions contiguous and every frozen manifest as it is |
| WorkflowEvidence.FreezeIgnoresVerification | backend/workflow/draw-service.ts:333-377 | verifying documents does not change what a submission freezes |
| WorkflowEvidence.SubmitKeepsEvidence | backend/workflow/draw-service.ts:360-394 | a submission locks exactly the manifest its evidence gives |
| ManifestCommitment.CurrentDocumentsAre | backend/workflow/draw-service.ts:367-372 | what a submission freezes: exactly the draw's documents that nothing supersedes, in ascending order of id |
| ManifestCommitment.ItemPrints | backend/workflow/draw-service.ts:374-377 | the text of a frozen document that goes into the hash: content hash, id, type and version |
| ManifestCommitment.ManifestCommits | backend/workflow/draw-service.ts:374-377 | equal manifest hashes were made from as many documents with, one by one, equal id, type, content hash and version |
| ManifestCommitment.SwappedEvidenceShows | backend/workflow/draw-service.ts:366-377 | any evidence table that recomputes to a draw's locked hash has the same current documents with the same contents |
| WorkflowApproval.ApproveKeepsApproval | backend/workflow/draw-service.ts:435-549 | an approval leaves every approved draw bound to its terms by enough others |
| WorkflowApproval.EvaluateKeepsApproval | backend/workflow/draw-service.ts:400-429 | re-evaluation, also from APPROVED, leaves every other approval bound |
| WorkflowApproval.BindingCommits | backend/workflow/draw-service.ts:450-457 | equal binding hashes were made for the same amount, currency, payee, manifest, policy and budget lines |
| EventTexts.BindingPrints | backend/workflow/draw-service.ts:450-457 | the text a binding hash is taken of, field by field |
| WorkflowSettlement.SettleKeepsSettlement | backend/workflow/draw-service.ts:746-795 | a settled row keeps one instruction per draw, one confirmation per reference and one match per reconciled draw |
| WorkflowSettlement.InstructKeepsSettlement | backend/workflow/draw-service.ts:555-593 | so does an instruction, which stays bound to the approved terms |
| WorkflowSettlement.ExceptionKeepsSettlement | backend/workflow/draw-service.ts:720-752 | so does an exception row |
| WorkflowSettlement.NoMismatchMeansAgreement | backend/workflow/draw-service.ts:763-769 | no mismatch codes means equal amount, currency and payee, and no earlier date |
| WorkflowRuns.StepKeepsInv | backend/workflow/draw-service.ts:191-800 | no operation, accepted or refused, breaks the joint invariant of log, evidence, approval and settlement |
| WorkflowRuns.ReachableInv | backend/workflow/draw-service.ts:191-800 | the invariant holds in every reachable state |
| WorkflowRuns.ImportKeepsInv | backend/workflow/draw-service.ts:649-799 | an import keeps it, uses up its batch key and reports on every row |
| WorkflowHistory.RunProgress | backend/workflow/draw-service.ts:191-800 | whatever is done next, the log only grows and frozen manifests keep what they cover |
| WorkflowGuarantees.LogReplaysState | backend/workflow/draw-request.ts:174-245 | in every reachable state each draw's logged moves form a path from its creation to its row's status |
| WorkflowGuarantees.NoStateIsSkipped | backend/workflow/draw-request.ts:79-103 | a draw was in every state all paths to its status go through: a reconciled one was submitted, reviewed, approved and instructed |
| WorkflowGuarantees.AuditChainVerifies | backend/workflow/draw-service.ts:213-217 | the tenant's chain verifies in every reachable state |
| WorkflowGuarantees.HistoryIsKept | migrations/0002_audit_event.sql:52-63 | nothing logged is ever changed or removed |
| WorkflowGuarantees.ApprovalQuorum | backend/workflow/draw-service.ts:461-505 | from APPROVED on, enough distinct approvers, none the requester, approved the draw's present terms, within the request |
| WorkflowGuarantees.ManifestRecomputes | backend/workflow/draw-service.ts:369-377 | past DRAFT, recomputing the manifest from the evidence table gives the locked hash |
| WorkflowGuarantees.OneHeadPerDocument | backend/workflow/draw-service.ts:305-310 | versions are contiguous and exactly the latest is not superseded |
| WorkflowGuarantees.ApprovedEvidenceVerified | backend/workflow/draw-service.ts:333-354 | from APPROVED on every manifest document has a logged verification by someone other than its uploader |
| WorkflowGuarantees.IncompleteNeverApproved | backend/workflow/draw-service.ts:406-414 | a frozen manifest that lacks a required type is never approved afterwards |
| WorkflowGuarantees.HoldNeverApproved | backend/workflow/draw-service.ts:400-429 | a draw once evaluated to HOLD is never approved, whatever is done next |
| WorkflowGuarantees.DutiesSeparated | backend/workflow/draw-service.ts:564-566 | no instruction's author is the requester or holds a decision on the draw, then or later |
| WorkflowGuarantees.InstructionBindsApproval | migrations/0001_autopilot_core.sql:507-532 | an instruction asks for exactly what was approved, and a draw has at most one |
| WorkflowGuarantees.OneConfirmationPerReference | backend/workflow/draw-service.ts:688-724 | no reference is confirmed twice, and no confirmation was entered and repeated by one person |
| WorkflowGuarantees.ReconciledByOneMatch | backend/workflow/draw-service.ts:771-782 | a draw is RECONCILED if and only if it has a MATCHED record, and never two |
| WorkflowGuarantees.Conservation | backend/workflow/draw-service.ts:771-782 | the confirmed amounts of all MATCHED records sum to the approved amounts of all RECONCILED draws |
| WorkflowGuarantees.ImportReportsEveryRow | backend/workflow/draw-service.ts:679-797 | a successful import yields one result and one record per row, in order, saying the same |
| WorkflowGuarantees.MatchPassesGuard | migrations/0001_autopilot_core.sql:606-629 | the service's match test implies the database's guard on MATCHED records |
| WorkflowGuarantees.UsedKeyChangesNothing | backend/workflow/draw-service.ts:109-113 | apart from creating drafts and staging batches, nothing happens under a key the log already has |
| WorkflowGuarantees.CreateReplaysExactly | backend/workflow/draw-service.ts:239-241 | creating a draft changes nothing if and only if a draw already has the key |
| WorkflowGuarantees.StageReplaysExactly | backend/workflow/draw-service.ts:608-616 | staging changes nothing if and only if the batch is already staged |
| WorkflowGuarantees.RepeatChangesNothing | backend/workflow/draw-service.ts:5-9 | repeating an accepted operation, after any further operations and in any surroundings, changes no table and no event |
| DraftKeys.UsedKeyCanCreate | backend/workflow/draw-service.ts:239-241 | a concrete run in which a key used for an upload then creates a second draft |
| DraftKeys.CreateSucceeds | backend/workflow/draw-service.ts:239-278 | a creation whose own conditions hold succeeds under any key no draw has, whatever the log knows |
| DraftKeys.LogSucceeds | backend/audit/pg-event-store.ts:70-148 | on a sound chain a fresh id and a JSON payload are all it takes for an event to be logged |
| WorkflowSuccess.SubmitGoes | backend/workflow/draw-service.ts:360-394 | with a sound log, fresh ids and an unused key, a submission that meets its own conditions succeeds and leaves exactly these tables |
| WorkflowSuccess.EvaluateGoes | backend/workflow/draw-service.ts:400-429 | likewise for an evaluation |
| WorkflowSuccess.ApproveGoes | backend/workflow/draw-service.ts:435-549 | likewise for an approval that no rule blocks |
| WorkflowSuccess.InstructGoes | backend/workflow/draw-service.ts:555-593 | likewise for an instruction |
| WorkflowSuccess.SettleGoes | backend/workflow/draw-service.ts:724-795 | a row that agrees with a waiting instruction settles it: confirmation, match and RECONCILED draw |
| WorkflowSuccess.ImportGoes | backend/workflow/draw-service.ts:649-799 | a batch of one such row, entered alike by two people, is imported |
| SettledRun.DrawCanBeReconciled | backend/workflow/draw-service.ts:223-799 | a concrete run of eight operations by three people ends with a draw that one person approved and one match reconciled |
| WorkflowAcceptance.RoleGranted | backend/api/db.ts:68-87 | a role is granted if and only if one of the allowed ones is held in scope, and then the first of those |
| WorkflowAcceptance.ApprovalNeedsGrounds | backend/workflow/draw-request.ts:123-168 | every recorded approval is by a person with an approver role in scope, for a payee whose account is verified and cooled and who is clear by a recent screening, under none of the five holds, with amounts within request, budget and eligibility, complete and verified frozen evidence, matching locks, and nobody approving their own request |
| WorkflowAcceptance.InstructionNeedsGrounds | migrations/0001_autopilot_core.sql:484-529 | every instruction comes from a treasury owner in scope who is a person and holds no decision on the draw, for an approved draw, a verified and cooled account and none of the five holds |
| WorkflowAcceptance.UnblockedExactlyOnGrounds | backend/workflow/draw-request.ts:123-168 | no rule but the number of approvers stands against an approval if and only if all these grounds are given |
| WorkflowAcceptance.BlockedExactlyWithoutGrounds | backend/workflow/draw-service.ts:470-507 | an otherwise well-formed approval is blocked if and only if one of them is missing |
| RowVerdicts.DatesCompare | backend/workflow/draw-service.ts:769 | comparing two dates as texts compares year, month and day |
| RowVerdicts.MismatchesTell | backend/workflow/draw-service.ts:765-769 | each of the four codes is given if and only if its own comparison fails, each once, in order, and no other code is |
| RowVerdicts.DateCodeMeansEarlier | backend/workflow/draw-service.ts:769 | a row gets DATE if and only if it is dated before the day of its instruction |
| RowVerdicts.RowVerdict | backend/workflow/draw-service.ts:720-797 | every imported row, by case: the codes its result reports, the same codes on record, the confirmation with every field of the row and both people, and the draw's new status |
| RowVerdicts.MatchedExactly | backend/workflow/draw-service.ts:720-782 | a row is reported without codes if and only if it is the first about an awaited settlement and agrees in amount, currency, payee and date |
| DualEntry.EntriesCompare | backend/workflow/draw-service.ts:658-660 | two entries count as equal if and only if they read as the same rows |
| DualEntry.TwoPeopleSameRows | backend/workflow/draw-service.ts:655-670 | an import needs two people in entry roles and two such entries |
| DualEntry.RowsComeToVerdicts | backend/workflow/draw-service.ts:679-797 | each row of an accepted import comes to its verdict on the tables the rows before it left |
| OperationRecords.CreateRecords | backend/workflow/draw-service.ts:239-278 | the row and the event of a new draft, field by field, and who may create it |
| OperationRecords.UploadRecords | backend/workflow/draw-service.ts:296-331 | the document and the event of an upload: hash of the content, one version above the newest, which it supersedes |
| OperationRecords.VerifyRecords | backend/workflow/draw-service.ts:333-354 | the event of a verification, with the content hash, by someone in one of four roles |
| OperationRecords.SubmitRecords | backend/workflow/draw-service.ts:373-385 | the event of a submission: under the policy and manifest it locks, with the frozen documents |
| OperationRecords.EvaluateRecords | backend/workflow/draw-service.ts:404-427 | the evaluation's row, PASS if and only if every required type is frozen, and its event |
| OperationRecords.ApproveRecords | backend/workflow/draw-service.ts:510-549 | the decision and the event of an approval: a move if and only if the caller completes the number of approvers, otherwise only recorded |
| OperationRecords.InstructRecords | backend/workflow/draw-service.ts:568-578 | the event of an instruction, with partner, reference, approved amount and binding |
| OperationRecords.StageRecords | backend/workflow/draw-service.ts:603-634 | the batch and the event of a first entry |
| ImportRecords.ImportRecordsBatch | backend/workflow/draw-service.ts:667-678 | the event of an import, with its rows and who confirmed them, comes first |
| ImportRecords.ExceptionRecords | backend/workflow/draw-service.ts:694-718 | the event of an exception row, with its codes, filed under its draw or its reference |
| ImportRecords.SettleRecords | backend/workflow/draw-service.ts:754-795 | the two events of a settled row, the second with the codes its result reports |
| OperationErrors.CreateErrors | backend/workflow/draw-service.ts:236-246 | a creation under a new key fails only with a code for something wrong, and succeeds only if nothing is |
| OperationErrors.UploadErrors | backend/workflow/draw-service.ts:289-303 | an upload under a new key fails only with a code for something wrong, and succeeds only if nothing is |
| OperationErrors.UploadReplays | backend/workflow/draw-service.ts:291-297 | under a used key an upload changes nothing if the draw has the content, and is otherwise not found |
| OperationErrors.VerifyErrors | backend/workflow/draw-service.ts:333-343 | a verification fails only with a code for something wrong, and under a used key changes nothing |
| OperationErrors.SubmitErrors | backend/workflow/draw-service.ts:360-381 | a submission fails only with a code for something wrong; under a new key it succeeds only if nothing is, under a used one it changes nothing |
| OperationErrors.EvaluateErrors | backend/workflow/draw-service.ts:400-406 | the same of an evaluation |
| OperationErrors.ApproveErrors | backend/workflow/draw-service.ts:435-507 | the same of an approval, the missing of a ground included |
| OperationErrors.InstructErrors | backend/workflow/draw-service.ts:555-567 | the same of an instruction |
| OperationErrors.StageErrors | backend/workflow/draw-service.ts:603-622 | a staging fails only with a code for something wrong and succeeds only if nothing is; staging the same entry again changes nothing |
| OperationErrors.ImportErrors | backend/workflow/draw-service.ts:649-667 | before its rows are looked at an import fails only with a code for something wrong with it, and none of that is wrong where it succeeds |
| DrawServicing.DrawService.constructor | backend/workflow/draw-service.ts:191-192 | empty tables satisfy the invariant |
| DrawServicing.DrawService.Rollback | backend/api/db.ts:59-61 | puts every table back |
| DrawServicing.DrawService.Append | backend/audit/pg-event-store.ts:70-148 | extends the chain field exactly as specified |
| DrawServicing.DrawService.Transition | backend/workflow/draw-request.ts:174-245 | checks, logs and returns the moved draw exactly as specified |
| DrawServicing.DrawService.Save | backend/workflow/draw-service.ts:86-107 | updates one row under the database's checks exactly as specified |
| DrawServicing.DrawService.CreateDraft | backend/workflow/draw-service.ts:223-279 | the new tables are the specified ones, or on any error the old ones; the invariant is kept |
| DrawServicing.DrawService.UploadEvidence | backend/workflow/draw-service.ts:285-331 | likewise for an upload |
| DrawServicing.DrawService.VerifyEvidence | backend/workflow/draw-service.ts:333-354 | likewise for a verification |
| DrawServicing.DrawService.Submit | backend/workflow/draw-service.ts:360-394 | likewise for a submission |
| DrawServicing.DrawService.Evaluate | backend/workflow/draw-service.ts:400-429 | likewise for an evaluation |
| DrawServicing.DrawService.Approve | backend/workflow/draw-service.ts:435-549 | likewise for an approval |
| DrawServicing.DrawService.Instruct | backend/workflow/draw-service.ts:555-593 | likewise for an instruction |
| DrawServicing.DrawService.StageCsv | backend/workflow/draw-service.ts:603-634 | likewise for a first entry, returning its number of rows |
| DrawServicing.DrawService.ImportCsv | backend/workflow/draw-service.ts:649-799 | likewise for an import, also when it fails in the middle of the file |
| DrawServicing.DrawService.ConfirmCsv | backend/workflow/draw-service.ts:637-647 | likewise for a second entry, with the first entrant taken from the staged row |
| DrawServicing.DrawService.ImportLoop | backend/workflow/draw-service.ts:679-797 | the loop with its early continues yields the specified results, or stops at the first failing row |
| DrawServicing.DrawService.Settle | backend/workflow/draw-service.ts:754-795 | the row's steps in order give the specified tables |
| DrawServicing.DrawService.Except | backend/workflow/draw-service.ts:694-718 | event, confirmation and record in order give the specified tables |

## Left out

- HTTP routers, OIDC verification, sessions without a valid tenant id, and the check that request input names no tenant: the tenant is fixed and the typed inputs have no field for one.
- Row-level security, locks and isolation of Postgres: a transaction is one atomic step, and each tenant is a partition of its own.
- Event ids used by other tenants, in the workflow: the ledger model checks them, the one-tenant workflow model takes its ids to be unused elsewhere.
- The inner objects of two event payloads, the approver's stated controls and the single results of an evaluation, are logged as built; no result says how they print.
- OperationErrors.ImportErrors: errors of single rows in an import are only told apart from errors of the batch.
- Display columns of a draw that no rule of the workflow reads: evidence, approval, settlement and evaluation status, hold texts, series id, timestamps other than submission.
- Document columns that nothing reads: storage address, source system, retention class, upload and verification times.
- Existence of deals, accounts and counterparties as foreign keys: a missing row is an error of the operation, as reading it would be.
- Operations that no service method performs: cancelling, holding, rejecting, expiring, failing or closing a draw, rejecting decisions, waivers, webhooks; the state machine has their transitions.
- The two cancellation guards of the transition function, for the same reason.
- DrawMachine.Blocks: which approval rules block, not the order of their codes in the message.
- Refusal message texts and paths, in the validator, the compiler and the service.
- Scenario.ValidateScenario: the checks on shape (not an object, not an array, unknown or legal-flag fields) do not arise for typed inputs.
- OrderIndependence.CompileIgnoresOrder: for scenarios the gate refuses, only that every order is refused; the refusals are listed in the order of what they refuse.
- ConfirmationCsv.ParseConfirmationCsv: its contract says what every parsed row satisfies; which texts are read as which rows is said by `CsvReading` and `CsvRoundTrip`.
- IEEE rounding: integers and reals are exact, and the range refusal is checked on the exact values.
- Artifact report fields (density, bandwidth, energy scale), the artifact id and its hash, symbol names and fixed header fields; a constraint's bits are a set, not a sorted list.
- The builder's pair key is a pair of indices, not the joined text of two numbers.
- Delay costs are a list of entries without inherited properties; the first entry of a window counts, and windows do not repeat.
- Strings are sequences of characters without surrogates, so characters beyond the basic plane sort by code point and not by code unit; JSON numbers are known by their text; a top-level undefined value is not hashed anywhere.
- The ledger's list and page reads, and the older 32-bit instruction hash, in-memory settlement service and reconciliation engine.
- Policy-loan, covenant, collateral, waiver, evidence-gating, trust-signal and risk formulas, analytics, and the contracts: floating-point or wall-clock rules of one call each, with no state shared across operations.
