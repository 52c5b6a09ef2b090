# Roleplay turn engine: model and proofs

This project models the turn engine of a text role-playing server and proves what it promises. A game
master's scenario has secrets, npcs, factions, quests and clocks. A language model narrates each turn and
proposes a typed delta. The engine checks the delta against the state before the turn, applies it, shows the
player a filtered view, and commits state, messages and events under a turn lock.

`dafny verify dfyconfig.toml` checks everything. The modules form three groups.

**The engine.** `Domain` holds the data. `ScenarioValidation`, `DeltaValidation` and `Sessions` model what is
accepted and where a session starts. `Reducer` has the source's loops as methods; each is proved equal to a
fold of `Reduction`. About these folds:

- `Rosters`, `RecordLists` and `KeyedLists` give independent readings of them: a register, log or counter for
  each entity, and upsert, update and remove on finite maps; `TurnEffects` puts them together for a whole turn;
- `LawfulDeltas` says which deltas are accepted and `DeltaErrors` what is reported of the others, without naming
  the checks; `SessionStart` and `VisibleState` do the same for where a session starts and what is shown;
- `WorldInvariant` is the invariant of all reachable states, with `ValidateScenario` as base case;
- `Freshness`, `Secrecy`, `SelfReveal`, `NpcLifecycle`, `Metrics`, `MetricRanges`, `ClueDiscovery` and
  `InventoryUpdates` are properties over single turns and over runs (`WrittenFacts` relates deltas to the facts
  they leave). Where a promise is false of the code there is a counterexample and the exact condition;
- `Projection`, `Disclosure`, `Noninterference` and `Replay` say what a player can and cannot see.

**The commit protocols.** `MemoryStore` and `PgStore` model the stores and locks as classes. `TurnPipeline` is
one turn from lock to commit. `MemoryProtocol`, `PgProtocol` and `PgLease` are state machines of any number of
interleaved turn requests, with takeover, late release and crashes of the Postgres lease. Their proofs use only
that an engine is lawful (`Engines`); `TurnEngineIsLawful` shows it of the modelled one.

**Text and loop algorithms.** `ReasoningStripper`, `SseDecoder`, `ParagraphWrap`, `MemorySelection`, `Retry`.

Modelling choices that matter when reading the contracts:

- The reducer works on a world state it owns, so the model passes lists in and out of its methods. What is
  shared and updated in place (stores, locks, the decoder's buffer) is a class.
- `lower` stands for Unicode lowercasing and is arbitrary everywhere.
- Integers of the source are unbounded here, apart from `u8` and `i8`, which are ranges, and the `u64` backoff,
  whose overflow is modelled.
- Identifiers from a random generator are given by the caller or handed out by a counter.
- A run is a list of deltas, each accepted in the state it is applied to (`AcceptedRun`). The scenario of a
  session does not change.
- The documentation of `with_retries` gives the delay as a formula for every retry count. The code overflows in
  the backoff after attempt 58, so more than 58 retries can end in overflow; the model follows the code.

## Model

| member | source | states |
|---|---|---|
| `ScenarioValidation.RejectDuplicates` | crates/domain/src/validation.rs:95-111 | The loop accepts exactly the lists without repetition and reports the first repeated identifier |
| `ScenarioValidation.RejectDuplicateRosters` | crates/domain/src/validation.rs:21-43 | All six rosters have distinct identifiers, or a duplicate is reported |
| `ScenarioValidation.ValidateScenario` | crates/domain/src/validation.rs:21-81 | Acceptance is exactly validity, and the entity reported really breaks the rule it is reported for |
| `DeltaValidation.FirstFailure` | crates/engine/src/validation.rs:113-361 | A checking loop passes when every change passes, and otherwise returns the error of the first one that fails |
| `DeltaValidation.LeakedGmOnlyFacts` | crates/engine/src/validation.rs:707-722 | Finds exactly the GM-only facts whose non-blank text occurs, case aside, in the new text |
| `DeltaValidation.CheckAction` | crates/engine/src/validation.rs:87-112 | Passes exactly for a reason, an intent, a consequence, some stake, clocks of the state only, and an observable effect in the delta |
| `DeltaValidation.CheckFact` | crates/engine/src/validation.rs:142-168 | Passes exactly when, for a player fact, every GM-only text it contains is named and revealable, named secrets come with a condition, and a condition comes with its proof |
| `DeltaValidation.CheckRevealProof` | crates/engine/src/validation.rs:811-885 | Passes exactly when the condition belongs to every named secret and a visible clue, old or new, proves it |
| `DeltaValidation.CheckClueLinks` | crates/engine/src/validation.rs:773-809 | Passes exactly for known secrets, a condition whenever there is a link, and no foreign condition |
| `DeltaValidation.CheckCast` | crates/engine/src/validation.rs:87-278 | Passes exactly when every action, memory, fact and npc change passes against the state before the turn |
| `DeltaValidation.CheckGroups` | crates/engine/src/validation.rs:280-476 | The same for factions, quests, clocks and relationships |
| `DeltaValidation.CheckPossessions` | crates/engine/src/validation.rs:478-651 | The same for inventory, player and clues |
| `DeltaValidation.ClockLookupNeverPanics` | crates/engine/src/validation.rs:363-411 | The lookup the source expects to succeed succeeds exactly for identifiers that passed the check before it |
| `LawfulDeltas.AcceptsIffLawful` | crates/engine/src/validation.rs:26-663 | The validator accepts exactly the lawful deltas, the law being said change by change of scenario, state and delta alone |
| `LawfulDeltas.HeaderIff` | crates/engine/src/validation.rs:72-85 | Scene, speaker, summary and location changes pass exactly with a reason and known names |
| `LawfulDeltas.ActionIff` | crates/engine/src/validation.rs:87-112 | An action passes exactly when complete, with known clocks, beside something observable in the delta |
| `LawfulDeltas.MemoryIff` | crates/engine/src/validation.rs:113-140 | A memory passes exactly with a reason, an importance of at most ten and, to be changed, an existing memory |
| `LawfulDeltas.FactIff` | crates/engine/src/validation.rs:142-168 | A player fact passes exactly when every GM-only text in it is a named secret that can be revealed, and a reveal has its condition and a clue shown to the player |
| `LawfulDeltas.HasConditionIff` | crates/engine/src/validation.rs:57-70 | A condition belongs to the last secret of an identifier, as collecting into a hash map has it |
| `LawfulDeltas.NpcIff` | crates/engine/src/validation.rs:170-278 | An npc change passes exactly for a known npc able to do it before the turn, with a reason and the content its variant asks for |
| `LawfulDeltas.FactionIff` | crates/engine/src/validation.rs:280-347 | Standing and pressure must stay within 100 of zero; notes and goals need a known faction and a reason only |
| `LawfulDeltas.QuestIff` | crates/engine/src/validation.rs:349-361 | A quest change passes exactly for a known quest with a reason |
| `LawfulDeltas.ClockIff` | crates/engine/src/validation.rs:363-411 | A clock change passes exactly for a known clock with a reason and, for numbers, a result on its face |
| `LawfulDeltas.RelationshipIff` | crates/engine/src/validation.rs:413-476 | Both ends must be known; trust, suspicion and loyalty stay within 100 of zero; attitude and notes are free |
| `LawfulDeltas.ItemIff` | crates/engine/src/validation.rs:478-503 | Items are added under a written identifier and removed or updated only if held |
| `LawfulDeltas.PlayerIff` | crates/engine/src/validation.rs:505-609 | The condition of each of the seven kinds of player change |
| `LawfulDeltas.ClueIff` | crates/engine/src/validation.rs:611-651 | A clue passes exactly with identifier, text and lawful links, or when a clue to show is known or discovered in the delta |
| `DeltaErrors.ReportedFaultIsReal` | crates/engine/src/validation.rs:26-663 | The error reported of a refused delta is a fault that one of its changes has, with the identifiers and values reported |
| `Reducer.ReduceMemories` | crates/engine/src/reducer.rs:33-66 | The memory loop is the fold of its changes |
| `Reducer.ReduceFacts` | crates/engine/src/reducer.rs:68-80 | The fact loop appends, numbering each new fact by version and position |
| `Reducer.ReduceActions` | crates/engine/src/reducer.rs:82-109 | The action loop appends, numbering each resolution by version and position |
| `Reducer.ReduceNpcs` | crates/engine/src/reducer.rs:111-199 | The npc loop is the joint fold over the npc roster and the fact list it also appends to |
| `Reducer.ReduceFactions` | crates/engine/src/reducer.rs:201-283 | The faction loop is the fold of its changes |
| `Reducer.ReduceQuests` | crates/engine/src/reducer.rs:285-330 | The quest loop is the fold of its changes |
| `Reducer.ReduceClocks` | crates/engine/src/reducer.rs:332-363 | The clock loop, with its clamps, is the fold of its changes |
| `Reducer.ReduceInventory` | crates/engine/src/reducer.rs:365-387 | The inventory loop is the fold of its changes |
| `Reducer.ReducePlayer` | crates/engine/src/reducer.rs:389-459 | The player loop is the fold of its changes |
| `Reducer.FindOrInsertRelationship` | crates/engine/src/reducer.rs:562-586 | The returned position is the first relationship of the pair, inserted neutral at the end if it was missing |
| `Reducer.ReduceRelationships` | crates/engine/src/reducer.rs:461-510 | The relationship loop is the fold of its changes |
| `Reducer.ReduceClues` | crates/engine/src/reducer.rs:512-550 | The clue loop is the fold of its changes |
| `Reducer.Apply` | crates/engine/src/reducer.rs:18-559 | The whole sequence of loops computes the fold of the delta over the state |
| `Rosters.NpcRoster` | crates/engine/src/reducer.rs:111-199 | Npc by npc: the last write wins in each register, logs are appended, and knowledge is a list without repetition |
| `Rosters.FactionRoster` | crates/engine/src/reducer.rs:201-283 | Faction by faction: standing and pressure move by the sum of their increments and notes are appended in order |
| `Rosters.QuestRoster` | crates/engine/src/reducer.rs:285-330 | Quest by quest: the last status wins and completed objectives are a set in order of completion |
| `Rosters.ClockRoster` | crates/engine/src/reducer.rs:332-363 | Clock by clock: the hand moves by its own changes, in order, and stays on the face; visibility is a register; nothing else changes |
| `Rosters.AddNew` | crates/engine/src/reducer.rs:285-330 | Completing objectives is set insertion that keeps what was there and adds no duplicate |
| `RecordLists.OldMemory` | crates/engine/src/reducer.rs:33-66 | Importance is a register of the first memory of an identifier; nothing else of a memory ever changes |
| `RecordLists.NewMemories` | crates/engine/src/reducer.rs:33-66 | New memories follow in the order recorded, numbered by position, when every importance change names an older memory, as the validator demands |
| `RecordLists.TraitsAndNotesAreLogs` | crates/engine/src/reducer.rs:389-459 | Traits and GM notes are appended in order and never changed |
| `RecordLists.NewGoals` | crates/engine/src/reducer.rs:389-459 | New goals follow as proposed, in order, when progress goes to goals known before, as the validator demands |
| `RecordLists.ResourcesConserve` | crates/engine/src/reducer.rs:389-459 | The first resource of an identifier moves by the sum of its increments and no other moves |
| `RecordLists.ResourcesMoveLawfully` | crates/engine/src/validation.rs:505-609 | Accepted resource changes keep the n-fold bound of the resource's own range, and one keeps it in range |
| `RecordLists.NoRunHasResources` | crates/persistence/src/store.rs:957-1057 | Sessions start without resources and no change adds one, so no accepted delta of a session holds a resource change: the two rows above speak of states given from outside |
| `RecordLists.ConditionsLast` | crates/engine/src/reducer.rs:389-459 | The conditions after a turn are the old ones nobody cleared and the added ones nobody cleared afterwards |
| `KeyedLists.InventoryRefines` | crates/engine/src/reducer.rs:365-387 | The list is a finite map by identifier under upsert, remove and update-if-present, with unique keys kept |
| `KeyedLists.CluesRefine` | crates/engine/src/reducer.rs:512-550 | The same for clues: discovery is upsert, visibility is update-if-present |
| `KeyedLists.RelationshipsRefine` | crates/engine/src/reducer.rs:461-510 | The same for relationships, a map keyed by source and target whose missing entries are neutral |
| `Sessions.TurnsAreCounted` | crates/engine/src/reducer.rs:552-558 | After any sequence of turns the version has grown by their number, and the event list is the log of them all |
| `TurnEffects.ActionsAreALog` | crates/engine/src/reducer.rs:82-109 | Old action resolutions stay, and each new one is recorded as proposed, field by field, numbered by position |
| `TurnEffects.FactsAreALog` | crates/engine/src/reducer.rs:68-140 | Old facts stay; then come the added and then the taught ones, field by field, numbered by position |
| `TurnEffects.RegistersOfRun` | crates/engine/src/reducer.rs:18-559 | After any turns location, scene, speaker and summary are what was written last, if anything was |
| `TurnEffects.RostersAfterTurn` | crates/engine/src/reducer.rs:111-363 | After a turn every npc, faction, quest and clock is what its own list of changes makes of it |
| `TurnEffects.TablesAfterTurn` | crates/engine/src/reducer.rs:365-550 | After a turn inventory, clues and relationships are the maps that their own changes make |
| `TurnEffects.LogsAfterTurn` | crates/engine/src/reducer.rs:82-459 | After a turn actions, traits, notes and events have grown by exactly what the delta says |
| `TurnEffects.RecordsAfterTurn` | crates/engine/src/reducer.rs:33-459 | After a turn goals, conditions and memories are the old ones moved by their own changes, and the new ones as proposed |
| `Sessions.TurnExtendsRun` | crates/engine/src/pipeline/mod.rs:149-204 | A delta accepted in the state of a run makes a longer run that ends in that delta applied |
| `Sessions.RunPrefix` | crates/engine/src/pipeline/mod.rs:149-204 | Every delta of a run was accepted in exactly the state it was applied to |
| `WorldInvariant.InitialWorldInv` | crates/persistence/src/store.rs:957-1057 | The initial state of a validated scenario satisfies the world invariant |
| `SessionStart.ClocksAndFactionsStart` | crates/persistence/src/store.rs:1008-1047 | Clocks start as their templates stand, visible; factions at their authored standing, without pressure or notes |
| `SessionStart.SecretsAndQuestsStart` | crates/persistence/src/store.rs:968-1035 | Every secret starts as a GM-only fact; a quest is available if visible and hidden otherwise |
| `SessionStart.NpcsStart` | crates/persistence/src/store.rs:982-1007 | Npcs start as authored, at the first location by default, with availability exactly as status, sight and place allow |
| `SessionStart.StageStart` | crates/persistence/src/store.rs:957-967 | The first npc speaks at the first location at version zero, and every other list is empty |
| `WorldInvariant.StepWorldInv` | crates/engine/src/reducer.rs:18-559 | Every accepted turn keeps the invariant: rosters, clock ranges, references, key uniqueness, identifiers, knowledge |
| `WorldInvariant.ReachableWorldInv` | crates/engine/src/validation.rs:26-663 | Hence every state of every run from a validated scenario satisfies it |
| `WorldInvariant.NoChangeIsDropped` | crates/engine/src/validation.rs:170-411 | Every npc, faction, quest and clock change of an accepted delta finds its entity |
| `WorldInvariant.FactsGrow` | crates/engine/src/reducer.rs:68-140 | The fact list is append-only |
| `WorldInvariant.StepKnowledge` | crates/engine/src/reducer.rs:120-140 | Every known fact of an npc stays a recorded fact that lists that npc, none listed twice |
| `Identifiers.DecimalInjective` | crates/engine/src/reducer.rs:42-42 | The decimal format of numbers is injective |
| `Identifiers.DecimalReads` | crates/engine/src/reducer.rs:42-42 | The displayed digits denote the number, without leading zeros |
| `Identifiers.GeneratedIdInjective` | crates/engine/src/reducer.rs:69-97 | Generated identifiers determine the version and the position they were made at |
| `Freshness.MemoryAndActionIdsDistinct` | crates/engine/src/reducer.rs:33-109 | Memory and action identifiers are pairwise distinct in every state that satisfies the invariant |
| `Freshness.FactIdsFreshForever` | crates/engine/src/reducer.rs:68-140 | Fact identifiers are distinct in all reachable states if and only if no secret is named like a generated fact that can occur |
| `Freshness.CollisionReachable` | crates/engine/src/reducer.rs:68-80 | Otherwise there is an accepted run that reaches the collision |
| `Secrecy.TurnRevealsProven` | crates/engine/src/validation.rs:142-168 | Each new player fact that contains a GM-only text names it, satisfies a condition of that secret, and is proved by a visible clue |
| `Secrecy.GeneratedFactsUnrevealable` | crates/engine/src/validation.rs:811-885 | A GM-only fact generated during play is in no player fact of an accepted delta |
| `Secrecy.SecretsOutliveTheirTurn` | crates/engine/src/validation.rs:707-885 | In every run, a GM-only fact generated in one turn is contained in no player fact of a later turn, if no secret that has a reveal condition is named like a generated fact |
| `Secrecy.SameTurnMayReveal` | crates/engine/src/validation.rs:142-168 | Within one turn nothing is compared: in every state whose old secrets a text does not contain, a delta that writes the text as a secret and as a player fact is accepted |
| `WrittenFacts.TurnWrites` | crates/engine/src/reducer.rs:68-140 | The texts of each visibility after a turn are those before it and then those its added facts and taught knowledge write, in order |
| `WrittenFacts.NewTextIff` | crates/engine/src/reducer.rs:68-140 | A text is written with a visibility if and only if some new fact carries it |
| `SelfReveal.OldSecretIsSafe` | crates/engine/src/validation.rs:811-885 | No player fact of an accepted turn contains a GM-only fact generated before it |
| `SelfReveal.TurnRevealsIff` | crates/engine/src/validation.rs:142-278 | An accepted turn puts a GM-only text learnt in play into a player fact if and only if its delta writes a GM-only text and a player text that contains it |
| `SelfReveal.RunKeepsSecretsIff` | crates/engine/src/validation.rs:142-278 | Over a whole run no player fact contains a GM-only fact of its own or an earlier turn if and only if no delta of the run copies its own secret |
| `NpcLifecycle.DeadNpcsAreFrozen` | crates/engine/src/validation.rs:170-278 | Any accepted list of changes leaves a dead npc's mind, knowledge and place alone and never makes it active; unconscious minds are kept too |
| `NpcLifecycle.RevivedIff` | crates/engine/src/validation.rs:170-278 | A run makes a dead npc active if and only if one of its turns leaves the npc neither dead nor active and a later turn leaves it active; nothing like a revival event is asked for |
| `NpcLifecycle.RevivalTakesTwoTurns` | crates/domain/src/validation.rs:83-93 | Death is not final: two accepted turns, through another status, make a dead npc active |
| `Metrics.SumBound` | crates/engine/src/validation.rs:282-345 | Increments each accepted against the same base add up to at most the n-fold distance to the bounds |
| `Metrics.FactionMetrics` | crates/engine/src/reducer.rs:203-259 | Standing and pressure change by exactly the sum of their increments, within the n-fold bound |
| `Metrics.RangeKeptIff` | crates/engine/src/reducer.rs:203-259 | A list of faction changes keeps the ranges if and only if the sums of its increments do |
| `Metrics.RunsStayInRange` | crates/engine/src/validation.rs:282-345 | Runs with at most one change per metric and delta keep every standing and pressure within 100 of zero |
| `Metrics.TwoChangesLeaveRange` | crates/engine/src/validation.rs:282-345 | Two accepted changes in one delta carry a neutral standing to 120 |
| `Metrics.SingleMoveIsExact` | crates/engine/src/reducer.rs:332-351 | For a clock moved once the clamp never acts |
| `Metrics.RelationshipsConserve` | crates/engine/src/reducer.rs:461-510 | Attitude, trust, suspicion and loyalty of every pair change by exactly the sum of their increments, and its notes grow by exactly the notes added |
| `Metrics.RelationshipsMoveLawfully` | crates/engine/src/validation.rs:459-475 | Trust, suspicion and loyalty keep the n-fold bound in an accepted turn |
| `Metrics.GoalProgress` | crates/engine/src/reducer.rs:417-426 | Progress goes, summed, to the first goal of the identifier and to no other goal |
| `Metrics.GoalsMoveLawfully` | crates/engine/src/validation.rs:533-549 | Accepted progress keeps the n-fold bound between 0 and 100 for the first goal of an identifier |
| `MetricRanges.RelationshipRangesKeptIff` | crates/engine/src/reducer.rs:461-510 | A list of relationship changes keeps trust, suspicion and loyalty in range if and only if the sums of its increments do for every pair |
| `MetricRanges.RunsKeepRelationshipRanges` | crates/engine/src/validation.rs:459-475 | Runs with at most one change per pair, metric and delta keep every trust, suspicion and loyalty within 100 of zero |
| `MetricRanges.NewGoalsInRange` | crates/engine/src/validation.rs:523-549 | Goals added in a turn keep their validated progress: accepted steps go to goals known before |
| `MetricRanges.RunsKeepGoalRanges` | crates/engine/src/validation.rs:523-549 | Runs with at most one step per goal and delta keep every goal between 0 and 100, duplicate identifiers included |
| `ClueDiscovery.KnownClues` | crates/engine/src/reducer.rs:512-550 | The clues known after a list of changes are those known before and those discovered in it |
| `ClueDiscovery.LostIff` | crates/engine/src/validation.rs:611-651 | A visibility change is lost if and only if its clue is neither known before the turn nor discovered earlier in the list |
| `ClueDiscovery.LostLeavesNoTrace` | crates/engine/src/reducer.rs:540-550 | A lost change can be left out of the delta without any effect |
| `ClueDiscovery.EarlyVisibilityChangeIsLost` | crates/engine/src/validation.rs:611-651 | In every state a delta that shows a clue before discovering it is accepted, and an unknown clue ends hidden |
| `InventoryUpdates.PresentItems` | crates/engine/src/reducer.rs:365-387 | An item is in the inventory after some changes exactly when the last one to add or remove it added it |
| `InventoryUpdates.LostIff` | crates/engine/src/validation.rs:478-503 | An accepted update is lost if and only if the last change before it to add or remove the item removed it |
| `InventoryUpdates.LostLeavesNoTrace` | crates/engine/src/reducer.rs:365-387 | A lost update can be left out of the delta without any effect |
| `InventoryUpdates.LateUpdateIsLost` | crates/engine/src/validation.rs:478-503 | For every item held, a delta that removes and then updates it is accepted, and the item is gone |
| `Projection.PlayerListsAreSubsequences` | crates/engine/src/projection.rs:30-229 | Each list a player is shown is a subsequence of the list an admin is shown |
| `Projection.PlayerSpeakerIsAdminSpeaker` | crates/engine/src/projection.rs:36-100 | A speaker or location the player sees is the one the admin sees |
| `VisibleState.NpcsShown` | crates/engine/src/projection.rs:48-66 | A viewer is shown one record for each open npc, in order: its state under the name and description of its scenario entry |
| `VisibleState.QuestsAndClocksShown` | crates/engine/src/projection.rs:93-117 | The same for quests, hidden ones for admins only, and clocks, field by field |
| `VisibleState.FactsAndCluesShown` | crates/engine/src/projection.rs:118-170 | The same for facts and clues |
| `VisibleState.ActionsAndMemoriesShown` | crates/engine/src/projection.rs:148-212 | The same for action resolutions and memories |
| `VisibleState.OwnListsShown` | crates/engine/src/projection.rs:127-200 | Traits, goals, conditions, resources and relationships open to the viewer are shown unchanged and in order |
| `VisibleState.PlaceAndSpeakerShown` | crates/engine/src/projection.rs:36-91 | The current location is shown if the viewer may see it, the speaker if among the npcs shown; version and events always |
| `Disclosure.FactionsAllShown` | crates/engine/src/projection.rs:68-86 | Every faction is shown, in order, under its own scenario name with its public side only |
| `Disclosure.AdminSeesTheCast` | crates/engine/src/projection.rs:48-66 | An admin sees the whole cast in order, each state beside its own scenario entry |
| `Disclosure.NpcShownIff` | crates/engine/src/projection.rs:48-66 | A player is shown exactly the npcs marked visible |
| `Disclosure.TurnDiscloses` | crates/engine/src/projection.rs:118-126 | A turn shows a player what was shown before it and then exactly the player facts its delta writes, in order |
| `Disclosure.RunDiscloses` | crates/engine/src/projection.rs:118-126 | What a player is shown in a session is exactly what its turns wrote for the player, in order |
| `Disclosure.RelationshipShownIff` | crates/engine/src/projection.rs:127-147 | A player is shown exactly the relationships with the player or a shown npc at one end |
| `Noninterference.ViewFactorsThroughRedaction` | crates/engine/src/projection.rs:30-229 | Removing every hidden entity and hidden field from the state changes nothing in the player's view |
| `Noninterference.HiddenTurnKeepsRedaction` | crates/engine/src/reducer.rs:18-559 | A delta that writes only hidden fields, and entities that are hidden and stay so, keeps the redacted state apart from its version |
| `Noninterference.HiddenTurnsDoNotShow` | crates/engine/src/projection.rs:30-229 | After such a turn the player's view is the one before it, apart from its version |
| `Replay.DraftIsComplete` | crates/shared/src/replay.rs:68-86 | A draft asks for the version, for every fact and memory text the player is shown, in order, and hides exactly the identifiers of the game master's facts |
| `Replay.DraftMeetsItsProjection` | crates/shared/src/replay.rs:55-88 | A fixture draft agrees with the projection it was made from whenever fact identifiers are distinct |
| `Replay.ReachableDraftsAreMet` | crates/shared/src/replay.rs:55-88 | Drafts of reachable sessions list no hidden fact that the player's projection shows |
| `Records.NoEventIsAWorldEvent` | crates/engine/src/pipeline/events.rs:1-31 | No pipeline or error event is named like the events that tell of the world |
| `Records.TurnEventsRead` | crates/persistence/src/store.rs:467-492 | Recording a turn's events appends exactly its log to what the stored events tell |
| `Records.ConversationContinues` | crates/persistence/src/store.rs:431-466 | A turn's two messages keep the shape of one intro and then user and assistant in turn |
| `MemoryStore.InMemoryApplicationStore.InsertScenario` | crates/persistence/src/store.rs:92-99 | Adds or replaces one scenario, after which sessions of it can be created |
| `MemoryStore.InMemoryApplicationStore.InsertSession` | crates/persistence/src/store.rs:141-173 | A session starts at its scenario's initial state with one system message, if the scenario exists; nothing else changes |
| `MemoryStore.InMemoryApplicationStore.LoadTurnState` | crates/persistence/src/store.rs:390-429 | Succeeds exactly when session, scenario and state exist, and returns them with the recent messages |
| `MemoryStore.InMemoryApplicationStore.AppendWorldEvents` | crates/persistence/src/store.rs:467-492 | The loop adds one record and one versioned timeline entry for each logged event, in order |
| `MemoryStore.InMemoryApplicationStore.PersistSuccessfulTurn` | crates/persistence/src/store.rs:431-494 | Stores state, two messages, events and timeline of its session, whatever version was there, and touches no other session |
| `MemoryStore.StoredTurn` | crates/persistence/src/store.rs:431-494 | A stored turn field by field: both messages, the raw output only if kept, and a record and timeline entry for each logged event |
| `MemoryStore.InMemoryApplicationStore.PersistEvent` | crates/persistence/src/store.rs:496-557 | Adds one record and one timeline entry without a version, even for an unknown session |
| `MemoryStore.RecentMessagesAreTheLast` | crates/persistence/src/store.rs:409-421 | Both stores' reversing and filtering give the last six messages that are not system messages, oldest first |
| `MemoryStore.InMemorySessionTurnLock.Acquire` | crates/engine/src/lock.rs:76-90 | Grants exactly when the session was not locked; it is locked afterwards |
| `MemoryStore.InMemorySessionTurnLock.Release` | crates/engine/src/lock.rs:33-69 | Dropping the guard unlocks its session and no other |
| `Engines.TurnEngineIsLawful` | crates/engine/src/reducer.rs:552-558 | The modelled start state and reducer keep the session, count each turn once and append its log |
| `Engines.HistoryCounts` | crates/engine/src/reducer.rs:552-558 | The state of a history has its length as version and its log as event list |
| `MemoryProtocol.TurnKeepsSessionGood` | crates/persistence/src/store.rs:431-494 | Persisting a turn computed from the current state extends the linear history and everything stored beside it |
| `MemoryProtocol.StepKeepsLock` | crates/engine/src/lock.rs:33-90 | Every step keeps the lock's set equal to the sessions with a live guard, one guard each |
| `MemoryProtocol.EveryInterleavingIsLinear` | crates/engine/src/lock.rs:33-90 | For every interleaving, each session's store is the fold of its committed deltas, and conversation, version stamps and event log agree |
| `MemoryProtocol.StoredStatesAreReachable` | crates/persistence/src/store.rs:431-494 | Stored states are states of accepted runs, with one plus twice the version messages, the stored events as event list, and the world invariant |
| `MemoryProtocol.TurnsNeverOverlap` | crates/engine/src/lock.rs:76-90 | Two requests are never inside a turn of the same session at once |
| `TurnPipeline.DefaultTurnPipeline.FinalizeWithParsedDelta` | crates/engine/src/pipeline/mod.rs:149-204 | Fails exactly with the validator's error; otherwise state, view and both messages are those of the delta, and no store is touched |
| `TurnPipeline.DefaultTurnPipeline.ParseOrRepair` | crates/engine/src/pipeline/mod.rs:244-273 | One repair attempt; a second unreadable answer leaves exactly one error event |
| `TurnPipeline.DefaultTurnPipeline.FinalizeTurnDelta` | crates/engine/src/pipeline/mod.rs:235-283 | Decides like extraction followed by validation, and writes nothing but that error event |
| `TurnPipeline.DefaultTurnPipeline.RunTwoCallGeneration` | crates/engine/src/pipeline/mod.rs:290-326 | Both calls must be answered; the narration is stripped and each call leaves its events in order |
| `TurnPipeline.DefaultTurnPipeline.Commit` | crates/engine/src/pipeline/mod.rs:375-389 | The single write of a turn, followed by its two closing events |
| `TurnPipeline.DefaultTurnPipeline.ProcessTurn` | crates/engine/src/pipeline/mod.rs:329-398 | The guard is released on every way out; without a decision only the events of the stages passed are written, with one exactly that turn is committed and described |
| `TurnPipeline.SuccessfulTurnReads` | crates/engine/src/pipeline/mod.rs:329-398 | A successful turn leaves the new state, the message of the player as typed, the stripped narration under the speaker before the turn, and its events in order |
| `TurnPipeline.FailedTurnReads` | crates/engine/src/pipeline/mod.rs:329-398 | A failed turn leaves state and messages and exactly the events of the stages it passed |
| `TurnPipeline.DecisionIff` | crates/engine/src/pipeline/mod.rs:235-283 | A delta is decided on exactly when read from the answer, or from the repair of an unreadable answer, and valid |
| `TurnPipeline.RecordingTellsNothing` | crates/engine/src/pipeline/mod.rs:212-219 | A turn that fails leaves state, messages and the story told by the events as they were |
| `TurnPipeline.BasicStagesAreLawful` | crates/engine/src/pipeline/mod.rs:80-96 | The pipeline is built from the validator, the reducer, the projector and the reasoning stripper, and keeps a state in its session |
| `PgStore.PgPool.CreateSession` | crates/persistence/src/store.rs:640-706 | Without the scenario nothing happens; otherwise session row, initial state and intro message are written whole or, if a statement fails, not at all |
| `PgStore.PgPool.LoadTurnState` | crates/persistence/src/repositories.rs:471-504 | Reads state, scenario and recent messages of the session, if they exist |
| `PgStore.PgPool.PersistSuccessfulTurn` | crates/persistence/src/repositories.rs:506-601 | Whatever statement fails, a turn is written whole or not at all, and only when the stored version is the one it was computed from |
| `PgStore.CommittedRows` | crates/persistence/src/repositories.rs:522-598 | A committed turn row by row: two messages, the delta beside the answer, the state at its version, one event for each line |
| `PgStore.CommitsIff` | crates/persistence/src/repositories.rs:506-601 | It commits exactly when the sessions exist, the stored version is the one before and no statement up to the commit fails |
| `PgStore.PgPool.PersistEvent` | crates/persistence/src/repositories.rs:603-623 | Adds one event row exactly when the session exists |
| `PgStore.PostgresSessionTurnLock.Acquire` | crates/persistence/src/lock.rs:19-41 | Granted exactly when the row is free or marked for more than five minutes; the row then carries the time |
| `PgStore.PostgresSessionTurnLock.Release` | crates/persistence/src/lock.rs:42-55 | Clears the two lock columns, whoever set them |
| `PgProtocol.ViewAfterTurn` | crates/persistence/src/repositories.rs:506-601 | A committed transaction adds one turn to the rows of its session and nothing to any other's |
| `PgProtocol.MatchingVersionIsCurrent` | crates/persistence/src/repositories.rs:563-583 | A worker whose version still matches has seen the whole history, so its delta was accepted in the state it is applied to |
| `PgProtocol.SeenStaysSeen` | crates/persistence/src/repositories.rs:471-504 | What a worker has loaded stays the state after some prefix of the history |
| `PgProtocol.StepKeepsInv` | crates/persistence/src/repositories.rs:506-601 | Every step of every worker, crash and takeover included, keeps the history invariant |
| `PgProtocol.EveryInterleavingKeepsHistory` | crates/persistence/src/lock.rs:19-56 | The invariant holds after every sequence of steps, with no assumption about the lock |
| `PgProtocol.NoLostUpdate` | crates/persistence/src/repositories.rs:506-601 | The state row is the fold of all stored deltas in commit order and its version counts them; messages and events agree; the world invariant holds |
| `PgProtocol.RaceHasOneWinner` | crates/persistence/src/repositories.rs:563-583 | Of workers that computed the same version, only the first to commit gets through |
| `PgLease.StepKeepsLease` | crates/persistence/src/lock.rs:19-56 | A timely step keeps one holder per session, marked with its own time |
| `PgLease.TimelyRunsExclude` | crates/persistence/src/lock.rs:19-56 | If nobody acquires past a holder older than five minutes, no session ever has two holders, crashes included |
| `PgLease.ExclusiveIffTimely` | crates/persistence/src/lock.rs:19-56 | For every run: no session ever has two holders if and only if no acquisition of the run finds a holder older than five minutes |
| `PgLease.FlagMeansHolder` | crates/persistence/src/lock.rs:19-56 | Without crashes such runs have the flag set exactly while a worker holds the lock |
| `PgLease.TakenOverIffExpired` | crates/persistence/src/lock.rs:21-36 | A held lock is taken over if and only if its holder is more than five minutes old |
| `PgLease.LateReleaseFreesStolenLock` | crates/persistence/src/lock.rs:42-55 | After a takeover the first holder's release lets a third worker in at once, beside a holder of age zero |
| `ReasoningStripper.StripTagBlocks` | crates/engine/src/safety.rs:25-41 | The loop keeps exactly the kept pieces of the text's lawful reading |
| `ReasoningStripper.ParseIsLossless` | crates/engine/src/safety.rs:25-41 | Kept pieces and removed blocks, in order, are the text |
| `ReasoningStripper.ParseIsLawful` | crates/engine/src/safety.rs:25-41 | Kept pieces hold no opening tag; each block ends at its first closing tag or runs to the end |
| `ReasoningStripper.ReadingIsUnique` | crates/engine/src/safety.rs:25-41 | No other decomposition of the text has these properties |
| `ReasoningStripper.StripReasoning` | crates/engine/src/safety.rs:9-22 | The method with its truncation loop computes the stripped text |
| `ReasoningStripper.NoMarkerSurvives` | crates/engine/src/safety.rs:11-22 | None of the four markers is in the result |
| `ReasoningStripper.ShownUpToAMarker` | crates/engine/src/safety.rs:11-22 | What is shown is the kept text up to the beginning of a marker, or all of it, trimmed |
| `ReasoningStripper.PlainTextIsOnlyTrimmed` | crates/engine/src/safety.rs:9-22 | A text with neither tag nor marker is only trimmed |
| `ReasoningStripper.OccurrenceCrossesSeam` | crates/engine/src/safety.rs:25-41 | Any opening tag in the kept text lies across a place where a block was removed |
| `ReasoningStripper.SurvivesIff` | crates/engine/src/safety.rs:9-41 | An opening tag survives if and only if, before the marker cut, some removed block has a beginning of the tag on its left and the remainder on its right |
| `ReasoningStripper.StrippingAgain` | crates/engine/src/safety.rs:9-41 | A second pass changes nothing if and only if no removed block joins a tag in this way |
| `ReasoningStripper.OnePassMayLeaveATag` | crates/engine/src/safety.rs:25-41 | Kept pieces may join to a tag that one pass leaves and the next strips |
| `SseDecoder.SseLineDecoder.Push` | crates/providers/src/http.rs:11-31 | A push returns the data of every frame completed by the chunk and keeps the rest |
| `SseDecoder.DrainInTwo` | crates/providers/src/http.rs:11-31 | Draining a text and then more text onto the rest is draining both at once |
| `SseDecoder.ChunkingIsIrrelevant` | crates/providers/src/http.rs:11-31 | For every way to cut the input, results and buffer are those of one push of the whole |
| `SseDecoder.DrainIsLossless` | crates/providers/src/http.rs:15-17 | Frames rejoined by blank lines, and the buffer, give back the input |
| `SseDecoder.FramesAreUnique` | crates/providers/src/http.rs:15-17 | The frames found are the only way to cut the text into complete frames |
| `SseDecoder.FrameDecodes` | crates/providers/src/http.rs:19-26 | Every non-empty payload written as data lines comes out with its line ends normalized |
| `SseDecoder.ForeignLinesSayNothing` | crates/providers/src/http.rs:19-26 | A line without the data field adds nothing to a frame and is nothing alone |
| `SseDecoder.PayloadRoundTrip` | crates/providers/src/http.rs:19-26 | It comes out unchanged if and only if it is not empty and has no carriage return before a newline |
| `SseDecoder.StreamRoundTrip` | crates/providers/src/http.rs:11-31 | However a stream of such payloads is cut, exactly the payloads come out and nothing is left |
| `ParagraphWrap.WrapParagraph` | crates/cli/src/render.rs:173-201 | The loop over strings produces the greedy layout of the words, joined by newlines |
| `ParagraphWrap.GreedyIsALayout` | crates/cli/src/render.rs:180-197 | Its lines hold the words in order, each line within the width or a single word |
| `ParagraphWrap.GreedyStaysAhead` | crates/cli/src/render.rs:180-197 | Word by word it never needs more lines, nor a fuller last line, than any other layout |
| `ParagraphWrap.GreedyIsOptimal` | crates/cli/src/render.rs:173-201 | No layout of the words uses fewer lines |
| `ParagraphWrap.WhitespaceSeparates` | crates/cli/src/render.rs:174-174 | Any whitespace character separates the words before it from those after it |
| `ParagraphWrap.WrappingKeepsWords` | crates/cli/src/render.rs:173-201 | The words of the wrapped text are the words of the text |
| `ParagraphWrap.WrappingTwice` | crates/cli/src/render.rs:173-201 | Wrapping is idempotent |
| `MemorySelection.PrioritizedMemories` | crates/engine/src/context.rs:461-482 | As many wanted memories as the limit allows, by falling importance and rising position, each one left out ranking after each one chosen |
| `MemorySelection.SelectionIsUnique` | crates/engine/src/context.rs:461-482 | These properties determine the selection |
| `MemorySelection.SelectedMemories` | crates/engine/src/context.rs:461-482 | Selected memories have the visibility asked for, by falling importance, older before newer among equals |
| `MemorySelection.SortByRank` | crates/engine/src/context.rs:471-477 | Sorting by this order gives the same positions, strictly ranked |
| `Retry.WithRetries` | crates/providers/src/http.rs:38-58 | Returns the first outcome that is a success, a permanent error or the last attempt's; overflow occurs exactly after 59 retryable failures with more than 58 retries |
| `Retry.RetryableIff` | crates/providers/src/provider.rs:183-195 | Retryable are exactly connection failures, timeouts, rate limits and server errors |
| `Retry.FitsIff` | crates/providers/src/http.rs:53-53 | The shifted delay fits in 64 bits exactly for attempts 0 to 57 |
| `Retry.TotalDelay` | crates/providers/src/http.rs:53-54 | After r sleeps 100(2^r - 1) ms have passed for r up to 5, and 3100 + 2000(r - 5) ms beyond |

## Left out

- HTTP routes, command line, configuration, secrets loading and provider clients: input and output.
- JSON decoding: a provider's answer is a text that an arbitrary parser turns into a delta or refuses; so is the unquoting of a JSON string.
- Prompt text, scene classification, role activation and reasoning styles: constant tables and formatting.
- `changed_entities` of the frontend patch: only the visible state of the patch is modelled.
- Unicode lowercasing: an arbitrary function in its place; lossy decoding of byte chunks is not modelled.
- Scenario text that the engine only carries, and match modes of conditions other than the single one the code acts on.
- Arithmetic overflow of `i32`, `i16` and `i64` in metrics, goals, resources and versions; negative versions.
- Deletion of sessions and scenarios, scenario updates during a session, provider assignment, direct saving of a world state.
- The order in which Postgres queries return rows of one transaction: tables are lists in insertion order.
- Poisoned mutexes, tracing and the text of error messages.
- Streaming turns and the debug variant of a turn: they run the same finalization as the modelled turn.
- TurnPipeline.DefaultTurnPipeline.ProcessTurn: describes one request alone over the in-memory store, whose writes cannot fail; interleaving is the subject of `MemoryProtocol` and `PgProtocol`, failing writes of `PgStore`.
- TurnPipeline.DefaultTurnPipeline.FinalizeWithParsedDelta: leaves out changed entities, scene type and prompt template version of the finalized turn.
- PgStore.PgPool.PersistSuccessfulTurn: begins at the transaction; the application store around it, which drops the raw provider output first if so configured, is modelled in memory mode only.
- TurnPipeline.DefaultTurnPipeline.Record: describes every event by its name; the error text that the source stores as description of an error event is left out.
- Reducer.Apply: rewrites lists as values, so aliasing and in-place mutation of vectors are not captured; the source owns the state it mutates.
- MemorySelection.SortByRank: an insertion sort on a list of positions stands for the library's in-place sort.
- Retry.WithRetries: an attempt's outcome is a function of its number, sleeping is recorded instead of performed, and what a build does after overflow (stop or wrap) is not modelled.
