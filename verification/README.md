# Rusty-memory, modelled and proved

Rusty-memory is a bi-temporal memory store: it appends what it hears and never resolves anything on
the way in, survivorship runs when something is read, and merging two entities has to keep five
cross-referencing structures in step. This project states what that store promises and proves it,
for every input and every run, in Dafny.

Each operation appears twice. The module ending in `State` says what state it leaves and what it
answers, declaratively: a merge is a map comprehension, a resolution the candidate no other
outscores. The class or method of the same name does what the code does, with its loops and its
updates in place, and is proved to leave exactly that. What the store promises is then proved of the
declarative form.

| files | what they hold |
|---|---|
| `Core`, `Ordering`, `Store`, `Resolution` | shared types; stable sort and ordered iteration; the store's version and edge logs; blocking keys, the abstract score and the vector index |
| `EngineState`, `Engine`, `EngineLoops` | the engine's operations as functions, as a class updating its fields, and the loop invariants between the two |
| `EngineInvariant`, `EngineLaws`, `MergeLaws`, `Runs` | the two invariants, what keeps them, what a merge conserves, and whole runs |
| `IdentityLaws`, `ReviewLaws`, `EdgeLaws`, `MergeOutcome` | what the operations mean to a caller: who a mention is and what is learned of them, which questions are asked, what an edge's log says, what a merge leaves |
| `Persist`, `Restore` | snapshots, the checks at the door, and the rebuilt blocking map |
| `IngestState`, `IngestLaws`, `Ingest` | one extracted turn: four loops over the engine |
| `Survivorship`, `TimelineLaws`, `SurvivorLaws`, `Reference`, `SurvivorEngine`, `Differential` | what competing claims amount to, twice implemented, what each strategy promises, and where the two agree |
| `Read`, `ReadLaws` | reads at two instants, standings, query filters and the order of hits; what they keep across runs |
| `Workload`, `Score` | the benchmark's oracle, generator and scoring |
| `Graph`, `Scope`, `CivilTime`, `Prewarm` | the graph walk, reach, the date arithmetic, and the concurrent pre-fetch |

Two invariants carry the engine. `Sound` is what a restored snapshot is checked for together with the
derived blocking map: index ids and assertion ids are equal, every assertion names a version that
exists of an entity that is known, identities are within the store, both counters are ahead of every
id in use, open questions are about known entities, and the blocking map holds under each key exactly
the entities whose record derives it. `Faithful` is what only the engine's own states have: no two
assertions name one version, open questions are distinct ordered pairs, answered pairs are of known
entities, and every stored tombstone corrects. `forget` and `erase` break any correspondence between
assertions and versions in both directions, so neither invariant asks for one.

## What turned out not to hold

Where a promise is false of the code, the code is kept and the exact condition is proved.

- The merge says the claim moves with the version. The store turns every tombstone it writes into a
  correction, so re-appending an older tombstone that said nothing rewrites it:
  `MergeLaws.MergeIsExactConcatenation` gives the condition, `Runs.LegacyMergeRewrites` a snapshot
  restore accepts and a merge then changes, and `Runs.MergeAfterAnyRun` shows no engine-written
  history meets the exception.
- Restore does not accept every snapshot the engine can write: one over an index of dimension zero is
  refused. `Persist.SnapshotIsAccepted` gives the condition, `Persist.DimensionlessIsRefused` the input.
- Engine and oracle part company ranking sources, where everyone agrees and someone is unlisted
  (`Differential.PriorityAgreesExactly`; the input is in `Differential.PriorityDisagreement`).
- They part company measuring length too: one counts bytes, the other characters. They agree if and
  only if there is nothing to measure or one value is the first longest by both measures
  (`Differential.LengthAgreesExactly`; the input is in `Differential.LengthDisagreement`).
- A closure does not always end the edge it tombstones: a version heard after the turn outranks it
  (`IngestLaws.ClosureEndsEdge`; the input is in `Runs.ClosureOutranked`).
- A well-formed turn can still fail half-way: two mentions joined by a relation may resolve to one
  entity (`IngestLaws.IngestDelivers`; the input is in `IngestLaws.CollapsingTurn`).
- The generator's comment says a tie makes the store refuse a whole read. It refuses only where the
  tied writes are the latest to have begun (`Workload.RefusesExactlyTies`; a history refused at one
  instant and answered at another is in `Workload.TieLeavesThePast`).
- The benchmark's store is not right about everything: an entity never written is read as the first
  one that was (`Score.StoreIsPerfectExactly`; the input is in `Score.StandInIsWrong`).
- The scope check's comment says a trailing separator reads identically; it does not
  (`Scope.TrailingSeparatorReadsDifferently`).

`dafny verify dfyconfig.toml` checks the whole project.

## Model

| member | source | states |
|---|---|---|
| `Engine.Engine.constructor` | crates/rm-engine/src/lib.rs:325-341 | a new engine is the empty state, and over an empty index it meets the invariant |
| `Engine.Engine.KeyEntity` | crates/rm-engine/src/lib.rs:545-552 | after it the entity stands under every key its record derives, once under each, and no other entry moved |
| `Engine.Engine.Candidates` | crates/rm-engine/src/lib.rs:481-496 | the loop over keys returns, ascending and once each, exactly the entities sharing a key with the mention; every entity where nothing blocks |
| `Engine.Engine.FoldFields` | crates/rm-engine/src/lib.rs:513-523 | fields already held keep their first spelling, fields arriving for the first time are taken, and `learned` says whether any did |
| `Engine.Engine.RememberIdentity` | crates/rm-engine/src/lib.rs:513-533 | the record is the fold, the blocking map follows it, and an unknown entity or a mention with nothing new changes nothing |
| `Engine.Engine.CreateEntity` | crates/rm-engine/src/lib.rs:832-839 | a fresh id, keyed and recorded under the mention |
| `Engine.Engine.Write` | crates/rm-engine/src/lib.rs:866-890 | the version appended, the vector indexed and the mapping recorded; a refused vector leaves the version and the counter as the code leaves them |
| `Engine.Engine.ScoreCandidates` | crates/rm-engine/src/lib.rs:375-391 | the running best is the match no other match outscores (lowest id among equals), and the review list is the review band in ascending order |
| `Engine.Engine.FileReview` | crates/rm-engine/src/lib.rs:558-571 | one more question, lower id first, under the next id |
| `Engine.Engine.Unanswered` | crates/rm-engine/src/lib.rs:407-407 | keeps, in order, exactly the pairs not already answered "not the same" |
| `Engine.Engine.Remember` | crates/rm-engine/src/lib.rs:367-422 | leaves the state and gives the answer the declarative `Remember` says, and keeps the invariant |
| `Engine.Engine.RememberAs` | crates/rm-engine/src/lib.rs:447-474 | leaves the state and gives the answer the declarative `RememberAs` says, refusing an unknown entity with nothing changed |
| `Engine.Engine.MoveAttribute` | crates/rm-engine/src/lib.rs:641-668 | one attribute of the absorbed entity copied version by version onto the survivor and erased |
| `Engine.Engine.MoveVersions` | crates/rm-engine/src/lib.rs:626-673 | after the loops the store is the merged store, logs concatenated and edges repointed, and the offsets returned are the lengths read before the copy |
| `Engine.Engine.AdoptAssertions` | crates/rm-engine/src/lib.rs:775-792 | every assertion of the absorbed entity is the survivor's, moved by exactly the length of the log it now reads from; no other moves |
| `Engine.Engine.MergeIdentity` | crates/rm-engine/src/lib.rs:695-711 | the absorbed id is struck from every block, emptied blocks go, and the survivor is keyed from the folded record |
| `Engine.Engine.Strike` | crates/rm-engine/src/lib.rs:696-702 | every block loses the entity and keeps the order of the rest; none is left empty |
| `Engine.Engine.RenameReviews` | crates/rm-engine/src/lib.rs:718-731 | in id order, each question is renamed, dropped if it became a question about one entity, and dropped if an earlier one now asks the same |
| `Engine.Engine.RenameRejections` | crates/rm-engine/src/lib.rs:733-741 | each answered pair renamed and kept in order, but for one the merge made about a single entity |
| `Engine.Engine.MergeInto` | crates/rm-engine/src/lib.rs:621-749 | everything that follows one entity becoming another: logs, edges, assertions, identity, blocks, questions and answers |
| `Engine.Engine.Confirm` | crates/rm-engine/src/lib.rs:615-749 | leaves the state and gives the answer the declarative `Confirm` says, and keeps the invariant |
| `Engine.Engine.Reject` | crates/rm-engine/src/lib.rs:799-807 | the question closes, its ordered pair is remembered as different, and nothing else moves |
| `Engine.Engine.DropVectors` | crates/rm-engine/src/lib.rs:1167-1178 | exactly the slot's assertions and their vectors go |
| `Engine.Engine.Forget` | crates/rm-engine/src/lib.rs:994-1022 | a tombstone appended and the slot's vectors dropped; an unknown entity changes nothing |
| `Engine.Engine.Erase` | crates/rm-engine/src/lib.rs:1039-1043 | the slot's log gone, its length returned, its vectors dropped; an unknown entity changes nothing |
| `Engine.Engine.EraseEdges` | crates/rm-engine/src/lib.rs:1068-1070 | every edge touching the entity gone and counted; an unknown entity changes nothing |
| `Engine.Engine.Relate` | crates/rm-engine/src/lib.rs:1078-1089 | one present edge version appended, or the store's refusal with nothing changed |
| `Engine.Engine.Unrelate` | crates/rm-engine/src/lib.rs:1097-1108 | one absent edge version appended, or the store's refusal with nothing changed |
| `Engine.Engine.RebuildIndex` | crates/rm-engine/src/lib.rs:933-967 | all or nothing: the index is replaced if and only if there is a usable vector for every assertion and for nothing else |
| `Engine.Engine.RebuildBlocks` | crates/rm-engine/src/persist.rs:336-346 | the rebuilt map is the one keyed from every identity record in id order |
| `Restore.CounterAhead` | crates/rm-engine/src/persist.rs:201-222 | comparing with the highest id decides whether the counter exceeds every id in use |
| `Restore.Open` | crates/rm-engine/src/persist.rs:173-317 | accepts exactly the acceptable snapshots; what it returns is the checked parts with the blocks rebuilt, and meets the invariant |
| `EngineInvariant.NewIsSound` | crates/rm-engine/src/lib.rs:325-341 | a new engine over an empty index meets both invariants |
| `EngineInvariant.CandidatesAreDerived` | crates/rm-engine/src/lib.rs:481-496 | what resolution considers depends on the identity records alone: the entities whose record shares a key with the mention |
| `EngineInvariant.BestMatchIsUnique` | crates/rm-engine/src/lib.rs:381-385 | at most one candidate wins |
| `EngineInvariant.KeyingKeepsDerived` | crates/rm-engine/src/lib.rs:535-552 | keying a record that only gained fields keeps the map exactly what the records derive, with no duplicates and no empty keys |
| `EngineInvariant.UnkeyingKeepsDerived` | crates/rm-engine/src/lib.rs:695-702 | striking a merged entity keeps the map exactly what the remaining records derive |
| `EngineInvariant.FoldKeepsDerived` | crates/rm-engine/src/lib.rs:498-533 | learning fields, or none, keeps the map derived and touches no other record |
| `IdentityLaws.CandidatesAreConsidered` | crates/rm-engine/src/lib.rs:481-496 | the candidates are those known by a record that, through some blocking key of each, derives a key the mention derives; everyone where nothing blocks |
| `IdentityLaws.MatchedHaveBest` | crates/rm-engine/src/lib.rs:381-385 | wherever anyone scores a match there is one no other match outscores, of equals the lowest id |
| `IdentityLaws.RememberLearns` | crates/rm-engine/src/lib.rs:367-422 | a mention becomes a new entity exactly when nobody considered reaches the match threshold, and is otherwise the highest-scoring match, of equals the lowest id; either way that entity's record then holds every field of the mention, keeps what it held, and no other record moves |
| `IdentityLaws.RememberWrites` | crates/rm-engine/src/lib.rs:367-422 | one log, the answered entity's, grows by all that was observed, a tombstone corrected; one assertion under the next id names it and one vector is indexed; no other log, edge, assertion or vector moves |
| `IdentityLaws.RememberAsLearns` | crates/rm-engine/src/lib.rs:447-474 | pinned, the observation goes to the entity named, or to a fresh one, and its record has taken the mention in all the same |
| `IdentityLaws.RememberAsWrites` | crates/rm-engine/src/lib.rs:447-474 | pinned, exactly the same is written to the entity named, or to a fresh one |
| `IdentityLaws.LearnedIsFound` | crates/rm-engine/src/lib.rs:498-552 | once a field is learned of someone, any later mention with a key in common with it is compared with them |
| `IdentityLaws.NewIsRecorded` | crates/rm-engine/src/lib.rs:832-839 | the answered entity is in the store; if new it is of the kind observed and created when it was observed; no entity's kind ever moves |
| `Resolution.FoldingAddsKeys` | crates/rm-resolve/src/lib.rs:186-211 | a key comes from one present field, so a fold only adds keys |
| `EngineLaws.AssertAppends` | crates/rm-store/src/lib.rs:403-450 | an assertion appends one version to one log and leaves every other log alone |
| `EngineLaws.WriteKeeps` | crates/rm-engine/src/lib.rs:866-890 | a write keeps the invariant even when the index refuses the vector, and is accepted exactly when the check passed |
| `EngineLaws.WriteAddsOne` | crates/rm-engine/src/lib.rs:847-890 | nothing already stored moves, and the new assertion reads back what was written |
| `EngineLaws.CreateKeeps` | crates/rm-engine/src/lib.rs:832-839 | creating keeps the invariant under an id never used before |
| `EngineLaws.RememberKeeps` | crates/rm-engine/src/lib.rs:358-422 | remembering keeps the invariant, succeeds exactly when the vector is acceptable, and a refusal changes nothing |
| `EngineLaws.RememberAsKeeps` | crates/rm-engine/src/lib.rs:447-474 | succeeds exactly when the vector is acceptable and the entity known; a refusal changes nothing |
| `EngineLaws.RejectKeeps` | crates/rm-engine/src/lib.rs:799-807 | rejecting keeps the invariant |
| `ReviewLaws.RejectStands` | crates/rm-engine/src/lib.rs:799-807 | after a rejection exactly its two records, either way round, are newly told apart, the question is closed, and nothing else moved |
| `ReviewLaws.RememberAsks` | crates/rm-engine/src/lib.rs:387-422 | a mention of somebody known opens no question; a new one opens exactly one, with its score, about each entity between the two thresholds not told apart from it; no open question moves; and the answer lists exactly those opened |
| `ReviewLaws.NeverAskedAgain` | crates/rm-engine/src/lib.rs:404-407 | no question a mention opens is about two records that were ever told apart, in either order |
| `ReviewLaws.ToldApartStays` | crates/rm-engine/src/lib.rs:794-807 | in particular after a rejection no mention raises two such records again |
| `EngineLaws.DropKeeps` | crates/rm-engine/src/lib.rs:1167-1178 | dropping a slot keeps index and assertions in step, and every other assertion's reading |
| `EngineLaws.ForgetKeeps` | crates/rm-engine/src/lib.rs:985-1022 | forgetting keeps the invariant though its tombstone has no assertion; a refusal changes nothing |
| `EngineLaws.EraseKeeps` | crates/rm-engine/src/lib.rs:1024-1043 | erasing keeps the invariant though it removes versions; a refusal changes nothing |
| `EngineLaws.EraseDestroys` | crates/rm-engine/src/lib.rs:1024-1043 | an erasure empties exactly one slot, answers how many versions went, drops exactly that slot's assertions and vectors, and moves nothing else |
| `EngineLaws.ForgetSilences` | crates/rm-engine/src/lib.rs:985-1022 | forgetting appends one tombstone, drops exactly that slot's assertions and vectors, and moves nothing else |
| `EngineLaws.EraseEdgesKeeps` | crates/rm-store/src/lib.rs:852-890 | erasing edges removes exactly those with the entity at either end, counts them, and leaves every other history and all else |
| `EngineLaws.PushEdgeKeeps` | crates/rm-store/src/lib.rs:708-740 | no edge is ever recorded to an unknown entity or from an entity to itself |
| `EngineLaws.RebuildKeeps` | crates/rm-engine/src/lib.rs:924-967 | swapping the index keeps every assertion matched with a vector |
| `EngineLaws.RebuildInstalls` | crates/rm-engine/src/lib.rs:924-967 | a rebuild happens exactly when every row is a vector of the new dimension usable under the new metric for an assertion, and no assertion goes without; it leaves that dimension, that metric and the last vector given for each; otherwise it changes nothing |
| `EngineLaws.UnknownIsRefused` | crates/rm-engine/src/lib.rs:994-1070 | forgetting, erasing or isolating an entity the store does not hold is refused by its id with nothing changed |
| `EngineLaws.RefusalsAreNamed` | crates/rm-engine/src/lib.rs:367-474 | an unusable vector is refused by what is wrong with it, an unknown entity or question by its id, and nothing changes |
| `EdgeLaws.InForceIsLastWord` | crates/rm-store/src/lib.rs:1191-1206 | an edge is in force exactly when, of the versions heard by then whose interval holds the instant, the one heard last and of those appended last says so |
| `EdgeLaws.RelateSpeaks` | crates/rm-engine/src/lib.rs:1078-1089 | relating two known, different entities appends one present version for just the interval given, open or closed: the edge is then in force wherever that version speaks and nothing heard later does, and elsewhere as before |
| `EdgeLaws.UnrelateSpeaks` | crates/rm-engine/src/lib.rs:1097-1108 | ending an edge appends one absent version from that instant on: not in force wherever it speaks and nothing heard later does, and elsewhere as before |
| `MergeLaws.MergedHistories` | crates/rm-engine/src/lib.rs:640-669 | each survivor log is its own followed by the absorbed one as the store writes it; the absorbed logs are empty; no other log moves |
| `MergeLaws.RepointedSound` | crates/rm-store/src/lib.rs:922-975 | repointing leaves no self-edge, no empty log and no edge touching the absorbed id |
| `MergeLaws.EdgesConserved` | crates/rm-store/src/lib.rs:922-1022 | every edge version survives under its new name but for those the move would turn on themselves |
| `MergeLaws.SortingKeepsInForce` | crates/rm-store/src/lib.rs:1191-1206 | re-sorting a log by ingestion changes no answer about what is in force |
| `MergeLaws.AbsorbedEdgeInForce` | crates/rm-store/src/lib.rs:980-1022 | two logs absorbed into one answer as their concatenation does |
| `MergeLaws.AdoptedStaysInjective` | crates/rm-engine/src/lib.rs:751-792 | two assertions never come to name one version |
| `MergeLaws.MergedReviewsDistinct` | crates/rm-engine/src/lib.rs:713-731 | open questions stay distinct ordered pairs and never name the absorbed entity |
| `MergeLaws.MergedReviewsComplete` | crates/rm-engine/src/lib.rs:713-731 | no question is lost but the settled and the repeated: an earlier one survives asking the same pair |
| `MergeLaws.ConfirmShape` | crates/rm-engine/src/lib.rs:615-749 | what a confirmed merge leaves in every part of the state |
| `MergeLaws.ConfirmKeepsReadings` | crates/rm-engine/src/lib.rs:751-792 | after a merge every assertion still resolves, to its own version |
| `MergeLaws.ConfirmKeeps` | crates/rm-engine/src/lib.rs:615-749 | a merge keeps both invariants and fails exactly for an unknown review, changing nothing |
| `MergeLaws.MergeIsExactConcatenation` | crates/rm-engine/src/lib.rs:640-668 | the survivor's log is exactly own then absorbed if and only if every absorbed tombstone already corrects |
| `MergeLaws.FaithfulMergeKeepsEverything` | crates/rm-engine/src/lib.rs:640-692 | in a state the engine produced, a merge concatenates exactly and changes no reading: value, interval, provenance, supersession and holder |
| `MergeOutcome.MergeLearns` | crates/rm-engine/src/lib.rs:615-711 | the lower id survives, its record holds its own fields and the absorbed one's new ones, no other record moves, and no entity changes kind or date |
| `MergeOutcome.MergedIsFound` | crates/rm-engine/src/lib.rs:695-711 | the survivor is still considered for every mention it was considered for |
| `MergeOutcome.MergeQuestions` | crates/rm-engine/src/lib.rs:713-731 | every question left asks under the new names what it asked, with its id and score; no two ask the same; one is dropped only where it became about a single entity or an earlier one asks it |
| `MergeOutcome.MergeAnswers` | crates/rm-engine/src/lib.rs:733-741 | every pair told apart still is, under the new names and lower id first, but for one that became a single entity; and no other pair is |
| `MergeOutcome.MergeEdges` | crates/rm-store/src/lib.rs:922-1022 | afterwards no edge names the absorbed entity or joins one to itself, and every other edge is in force, at every instant on both clocks, exactly when the two histories told as one say so |
| `Runs.StepKeeps` | crates/rm-engine/src/lib.rs:367-1108 | every operation, a reload under any ruleset included, keeps both invariants |
| `Runs.ReloadKeeps` | crates/rm-engine/src/persist.rs:95-346 | a reload under any ruleset keeps both invariants and moves nothing but the derived blocking map |
| `Runs.ReachableIsFaithful` | crates/rm-engine/src/lib.rs:325-1108 | every state any sequence of calls and reloads reaches meets both invariants, under the ruleset the last accepted reload brought |
| `Runs.StoredTombstonesCorrect` | crates/rm-store/src/lib.rs:403-450 | in every reachable state a stored tombstone corrects |
| `Runs.MergeAfterAnyRun` | crates/rm-engine/src/lib.rs:615-792 | after any run, forgets, erasures, earlier merges and reloads under other rulesets included, a merge concatenates logs and changes no reading |
| `Runs.LegacyMergeRewrites` | crates/rm-engine/src/lib.rs:640-668 | a snapshot restore accepts, whose one merge turns an unstated tombstone into a correction and so is not a concatenation |
| `Runs.ClosureOutranked` | crates/rm-engine/src/ingest.rs:338-384 | an engine told twice of an edge, then given a turn that closes it: the answer always lists the edge as closed, and it is still in force if and only if the turn was observed before the second telling |
| `Runs.ReloadIsInvisible` | crates/rm-engine/src/persist.rs:164-346 | after any run a snapshot is accepted exactly when the index has a dimension, and under any ruleset deriving the same keys, scores and bands every later call, further reloads included, answers as it would have without the reload |
| `Persist.IndexMatchesAssertions` | crates/rm-engine/src/persist.rs:245-293 | one inclusion and equal counts are the whole bijection between vectors and assertions |
| `Persist.DerivedBlocksAgree` | crates/rm-engine/src/persist.rs:319-346 | two maps derived from one set of records are equal as duplicate-free sets |
| `Persist.AcceptedIsSound` | crates/rm-engine/src/persist.rs:173-317 | whatever restore accepts, whoever wrote it and under any ruleset, is a sound engine with that snapshot |
| `Persist.SnapshotIsAccepted` | crates/rm-engine/src/persist.rs:173-317 | a sound engine's snapshot is accepted if and only if its index has a dimension |
| `Persist.DimensionlessIsRefused` | crates/rm-index/src/lib.rs:254-259 | the failing family is not empty: a new engine over a dimensionless index is refused |
| `Persist.RoundTrip` | crates/rm-engine/src/persist.rs:95-108 | a round trip returns the same engine, blocks equal as sets, and the same candidates for every mention |
| `Persist.NextRememberIsFresh` | crates/rm-engine/src/persist.rs:191-222 | after any accepted restore the next acceptable observation lands under an unused assertion id, on a known entity or one under an id no entity has had, and disturbs no assertion, vector or question |
| `Ingest.Validate` | crates/rm-engine/src/ingest.rs:408-452 | gives the first complaint in order, and none exactly for a well-formed extraction |
| `Ingest.Mentions` | crates/rm-engine/src/ingest.rs:218-254 | the first loop, stopping at a refusal with what had landed |
| `Ingest.Facts` | crates/rm-engine/src/ingest.rs:259-304 | the second loop: each fact written to the entity its mention resolved to |
| `Ingest.Relations` | crates/rm-engine/src/ingest.rs:306-320 | the third loop, stopping at a refusal |
| `Ingest.SparedBy` | crates/rm-engine/src/ingest.rs:341-350 | the objects asserted this turn for a subject and predicate, by resolved id |
| `Ingest.EdgesFrom` | crates/rm-engine/src/ingest.rs:352-362 | the loop over the edges returns, ascending and once each, the unspared objects of that predicate still in force |
| `Ingest.Close` | crates/rm-engine/src/ingest.rs:370-383 | one tombstone per doomed edge, each recorded |
| `Ingest.Closures` | crates/rm-engine/src/ingest.rs:338-384 | the fourth loop, reading what the closures before it left |
| `Ingest.IngestPrepared` | crates/rm-engine/src/ingest.rs:188-388 | the whole turn leaves the state and gives the answer the declarative `Ingest` says, and keeps the invariant whatever it answers |
| `IngestState.NoComplaintIffValid` | crates/rm-engine/src/ingest.rs:390-452 | nothing is refused up front exactly when every mention has a name, every index is in range and no relation runs from a mention to itself |
| `IngestState.ComplaintIsTrue` | crates/rm-engine/src/ingest.rs:390-452 | what the first complaint names is there: the first mention without a name, else an index in use and out of range, else a relation from a mention to itself |
| `IngestState.RefusedUpFront` | crates/rm-engine/src/ingest.rs:188-216 | a turn complained of, or given the wrong number of vectors, is refused with nothing changed |
| `IngestLaws.RememberExtends` | crates/rm-engine/src/lib.rs:367-422 | a remembered observation moves no earlier reading and no edge, and reads back as written |
| `IngestLaws.RelationsLand` | crates/rm-engine/src/ingest.rs:306-320 | the relations are all recorded exactly when none collapses onto one entity, each log growing by what this turn said of it |
| `IngestLaws.DoomedKnown` | crates/rm-engine/src/ingest.rs:352-362 | what a closure ends is, in id order, exactly what is in force of that subject and predicate and not spared |
| `IngestLaws.SparedIsAsserted` | crates/rm-engine/src/ingest.rs:341-350 | the spared objects are exactly those this turn asserted, whichever mention named the subject |
| `IngestLaws.ClosingExactly` | crates/rm-engine/src/ingest.rs:338-384 | a closure ends every edge of its subject and predicate in force as it speaks but those the turn asserted, and no other |
| `IngestLaws.ClosuresLand` | crates/rm-engine/src/ingest.rs:338-384 | no closure touches an edge the same turn asserted |
| `IngestLaws.ClosureAppends` | crates/rm-engine/src/ingest.rs:370-383 | a closure appends one tombstone to each edge it ends and records it, and touches no other log |
| `IngestLaws.TombstoneSettles` | crates/rm-engine/src/ingest.rs:364-383 | once a closure has spoken of an instant, no later closure of the turn changes what holds there |
| `IngestLaws.ClosureEndsEdge` | crates/rm-engine/src/ingest.rs:364-376 | in the state a turn's closures leave, every edge one of them ended is in the answer, and still holds at that closure's instant if and only if it held there, as the closure spoke, on the word of something heard after the turn |
| `IngestLaws.IngestDelivers` | crates/rm-engine/src/ingest.rs:188-388 | a well-formed turn with fitting vectors succeeds if and only if no relation collapses; then its assertions are the mentions' then the facts', in order, each on the entity its mention resolved to, and nothing asserted is closed |
| `IngestLaws.IngestCloses` | crates/rm-engine/src/ingest.rs:188-388 | of the state a finished turn leaves: its closures ended exactly the edges in force as they spoke that it had not asserted; each is in the answer, and still holds at that closure's instant if and only if it held, as the closure spoke, on the word of something heard after the turn |
| `IngestLaws.CollapsingTurn` | crates/rm-engine/src/ingest.rs:306-320 | a well-formed turn whose two related mentions resolve to one entity is refused with its mentions already recorded: the failing input |
| `ReviewLaws.IngestAsks` | crates/rm-engine/src/ingest.rs:188-388 | a turn that finishes lists exactly the questions it opened, in order and once each, and changes none that was open |
| `ReviewLaws.IngestLearns` | crates/rm-engine/src/ingest.rs:218-254 | after it the records are those before with each mention's name and kind taken in, in order, by whoever it was placed on; a new entity is of the kind of the first mention placed on it and of the turn's date, and no other changed kind |
| `IngestLaws.IngestKeeps` | crates/rm-engine/src/ingest.rs:188-388 | whatever a turn answers, even refused half-way, the invariants stand |
| `Reference.Merge` | crates/rm-conform/src/reference.rs:18-31 | every strategy, refusals included, is the documented rule on the claims |
| `Reference.Distinct` | crates/rm-conform/src/reference.rs:80-110 | the distinct values of a group in order of first appearance |
| `Reference.MostRecentWins` | crates/rm-conform/src/reference.rs:80-110 | the one value heard last, or a refusal where two are |
| `Reference.BuildTimeline` | crates/rm-conform/src/reference.rs:135-193 | the loop over moments builds the coalesced, tiled timeline of the claims |
| `Reference.OpenFact` | crates/rm-conform/src/reference.rs:171-190 | a restatement extends the standing span; anything else closes it where the new one opens |
| `Reference.OpenSpan` | crates/rm-conform/src/reference.rs:148-169 | a moment opens with the values of the claims heard last about it, contested where they differ |
| `Reference.MostCompleteWins` | crates/rm-conform/src/reference.rs:199-213 | the first longest value |
| `Reference.MajorityWins` | crates/rm-conform/src/reference.rs:219-247 | the first seen of the most frequent values |
| `Reference.PriorityWins` | crates/rm-conform/src/reference.rs:274-297 | most recent within the first listed source that said anything; a refusal for an unlisted source |
| `SurvivorEngine.Merge` | crates/rm-survivor/src/lib.rs:409-444 | the engine's rule: unanimity first, then the strategy |
| `SurvivorLaws.MajorityIsMostSaid` | crates/rm-survivor/src/lib.rs:506-523 | both implementations, under both majority strategies, answer the value said most often, and of those said as often the one said first |
| `SurvivorLaws.SomeIsMostSaid` | crates/rm-survivor/src/lib.rs:506-523 | and among any claims there is such a value |
| `SurvivorLaws.LatestIsLastSaid` | crates/rm-survivor/src/lib.rs:531-545 | both answer a value under the most-recent strategy exactly when everyone heard last says it, and refuse exactly where they differ |
| `SurvivorLaws.PriorityIsFirstToSpeak` | crates/rm-conform/src/reference.rs:274-300 | with every source listed, both let the first of the list that claims anything decide alone, by what it was heard to say last |
| `SurvivorLaws.FirstAndUnanimous` | crates/rm-conform/src/reference.rs:249-272 | both answer the first value claimed; and what all claim, or nothing where two differ |
| `SurvivorLaws.LongestSurvives` | crates/rm-conform/src/reference.rs:199-213 | measuring length, each answers the first of the longest by its own measure |
| `SurvivorLaws.NothingSurvives` | crates/rm-survivor/src/lib.rs:405-438 | where nothing is claimed nothing survives, under every strategy without a time axis |
| `SurvivorEngine.BuildTimeline` | crates/rm-survivor/src/lib.rs:619-690 | the two-pointer pass over sorted claims builds the same timeline the oracle's does |
| `SurvivorEngine.GroupSpan` | crates/rm-survivor/src/lib.rs:630-665 | a sorted group's last element carries its latest hearing, and its values there are the opening's |
| `SurvivorEngine.CloseAll` | crates/rm-survivor/src/lib.rs:666-690 | the second pass closes each span where the next opens |
| `TimelineLaws.TimelineAnswers` | crates/rm-conform/src/reference.rs:39-56 | at every instant the timeline answers what the claims mean read declaratively: the value of the latest begun and latest heard, a refusal exactly where those differ, no coverage before any |
| `TimelineLaws.TimelineShape` | crates/rm-conform/src/reference.rs:135-193 | strictly increasing, each span closed where the next opens, open-ended only at the end, no value restated in adjacent spans, starting at the least moment |
| `TimelineLaws.TimelineTiles` | crates/rm-conform/src/reference.rs:135-193 | exactly one span covers each instant from the first moment on, none before it |
| `TimelineLaws.ContestedNames` | crates/rm-conform/src/reference.rs:148-169 | a contested fact names exactly the values of the claims heard last about its moment, once each and at least two, and when they were heard |
| `TimelineLaws.CoalesceKeepsAnswers` | crates/rm-conform/src/reference.rs:171-190 | coalescing a restated value changes no answer |
| `TimelineLaws.LaterClaimsAreSilent` | crates/rm-conform/src/reference.rs:39-56 | what has not begun to hold by an instant has no say in it |
| `TimelineLaws.LatestClaimDecides` | crates/rm-conform/src/reference.rs:39-56 | a claim no other claim begun by then reaches on both clocks decides the instant |
| `TimelineLaws.MeaningIsOrderFree` | crates/rm-conform/src/invariants.rs:68-84 | the meaning reads the set of claims, so neither order nor repetition matters |
| `Differential.Agrees` | crates/rm-conform/src/differential.rs:23-33 | decides agreement, refusals compared as refusals |
| `Differential.EngineMatchesOracle` | crates/rm-conform/src/differential.rs:13-33 | engine and oracle agree on every history under every strategy that neither measures length nor ranks sources |
| `Differential.PriorityAgreesExactly` | crates/rm-survivor/src/lib.rs:424-431 | ranking sources, they agree if and only if it is not the case that everyone says one thing and someone saying it is unlisted |
| `Differential.PriorityDisagreement` | crates/rm-survivor/src/lib.rs:424-431 | one claim from a source the list leaves out: the engine answers it, the oracle refuses |
| `Differential.LengthAgreesExactly` | crates/rm-conform/src/reference.rs:199-213 | measuring length, they agree if and only if there is nothing to measure or some value is the first longest in bytes and the first longest in characters |
| `Differential.LengthAgreesOnAscii` | crates/rm-conform/src/reference.rs:199-213 | measuring length, they agree wherever every value is ASCII |
| `Differential.LengthDisagreement` | crates/rm-survivor/src/lib.rs:490-503 | a two-assertion history on which bytes and characters choose differently |
| `Differential.Shrink` | crates/rm-conform/src/differential.rs:40-56 | the result is a subsequence, still disagrees if the input did, is empty only for an empty input, and loses its disagreement under every further single deletion |
| `Scope.AppliesIffReaches` | crates/rm-conform/src/applicability.rs:39-44 | the segment-wise rule and the separator-anchored prefix agree on every pair of strings |
| `Scope.ReachIsPartialOrder` | crates/rm-core/src/scope.rs:33-43 | reach is reflexive, antisymmetric and transitive |
| `Scope.UniversalIsTop` | crates/rm-core/src/scope.rs:21-35 | the universal scope reaches everywhere and only it reaches the universal position |
| `Scope.SiblingsDoNotReach` | crates/rm-core/src/scope.rs:28-32 | `prod` never reaches `production`: a segment is not a string prefix |
| `Scope.ScopesReadApart` | crates/rm-core/src/scope.rs:45-50 | two different scopes always read differently at one of their own two positions |
| `Scope.TrailingSeparatorReadsDifferently` | crates/rm-core/src/scope.rs:45-50 | with and without a trailing separator a scope reads differently, where the comment beside the check says identically |
| `Scope.ValidIffNamed` | crates/rm-core/src/scope.rs:50-78 | a scope is accepted if and only if it is the universal one or every part of it names something other than the wildcard |
| `CivilTime.DaysFromCivilCounts` | benches/locomo/src/main.rs:780-787 | for every valid proleptic Gregorian date, negative years included, the era arithmetic is the day-by-day count since 1970-01-01 |
| `CivilTime.TimestampCounts` | benches/locomo/src/main.rs:787-789 | the timestamp is the count of minutes since the epoch by the calendar and the 24-hour clock, in milliseconds |
| `CivilTime.DatesOrdered` | benches/locomo/src/main.rs:780-787 | an earlier date has strictly fewer days |
| `CivilTime.TimestampIsMonotone` | benches/locomo/src/main.rs:748-790 | the timestamp is strictly monotone in date and 24-hour time |
| `CivilTime.TwelveHourClock` | benches/locomo/src/main.rs:754-758 | the meridiem adjustment sends the twelve-hour clock onto the twenty-four-hour one, noon and midnight included |
| `CivilTime.Hour24` | benches/locomo/src/main.rs:752-758 | what the match leaves: the same half of the day, the same hour modulo twelve, and an hour that is not one to twelve let through unchecked |
| `Graph.Neighbours` | crates/rm-graph/src/lib.rs:200-218 | one hop along wanted edges in force, in the directions asked |
| `Graph.NeighborhoodOf` | crates/rm-graph/src/lib.rs:148-197 | returns the first min(budget, N) of the full listing and is truncated exactly when N exceeds the budget; the eight-bit distance never overflows and cycles terminate |
| `Graph.SuccessorsAreOneHop` | crates/rm-graph/src/lib.rs:200-218 | one hop from x to y is an edge in the store, of a predicate asked for and in force: from x to y going out, from y to x going in, either going both ways |
| `Graph.LevelIsDistance` | crates/rm-graph/src/lib.rs:148-197 | a level of the walk is the set of entities at exactly that shortest distance from an existing seed, along paths of such edges |
| `Graph.ListingIsShortestPaths` | crates/rm-graph/src/lib.rs:148-197 | the full listing holds each entity within the hop limit exactly once at its shortest distance, by distance then id |
| `Graph.WalkReturnsNearest` | crates/rm-graph/src/lib.rs:148-197 | what is returned is at its true distance, nothing left out is nearer than anything returned, and an untruncated walk returns everything in reach |
| `Read.AboutUnder` | crates/rm-engine/src/read.rs:373-438 | reads under the attribute's own strategy if it has one and the default if not: filters what was heard by then and by whom, and answers as survivorship and the instant decide |
| `Read.AboutIgnoresInvisible` | crates/rm-conform/src/invariants.rs:15-60 | under every strategy, appending versions heard later or held by someone else changes no answer |
| `Read.AboutMeans` | crates/rm-engine/src/read.rs:373-438 | over intervals a read answers what the claims heard by then mean |
| `Read.AboutSurvives` | crates/rm-engine/src/read.rs:373-438 | under any other strategy a read says of every instant what survives of the claims heard: the value, the absence, nothing, or a refusal |
| `Read.HeardAre` | crates/rm-engine/src/read.rs:373-400 | the claims heard are those of exactly the versions heard by then and held by that holder, or by nobody where none is asked for |
| `Read.AboutIsOrderFree` | crates/rm-conform/src/invariants.rs:54-84 | under either strategy that reads by time, reordering a slot changes no answer, refusals compared as refusals |
| `Read.StandingIn` | crates/rm-engine/src/read.rs:691-717 | the loop with its early return decides the standing |
| `Read.StandingIsStrongestClaim` | crates/rm-engine/src/read.rs:673-717 | the standing is the strongest claim any strictly later version makes, whatever their order |
| `Read.StandingMeans` | crates/rm-engine/src/read.rs:673-717 | an assertion is corrected if anything heard later in its slot, by the horizon, corrects; else unsettled if anything says nothing of it; else joined if anything joins; else the latest |
| `Read.CarryingClimbs` | crates/rm-engine/src/read.rs:673-717 | whatever a log becomes, so long as nothing is lost from it, a standing in it never drops |
| `Read.PassesFilters` | crates/rm-engine/src/read.rs:620-670 | the chain of early returns decides whether an assertion is in scope |
| `Read.ScopeAt` | crates/rm-engine/src/read.rs:638-651 | searching from the end finds the last scope version known on both of the query's clocks |
| `Read.FiltersAdmit` | crates/rm-engine/src/read.rs:620-670 | what the filters admit: a standing assertion of the entity asked about, whose version came from the source and session asked for, was heard by then and holds then, and whose entity's last known scope, if any, reaches the position |
| `Read.DeeperSeesMore` | crates/rm-engine/src/read.rs:638-658 | moving a recall's position deeper only ever admits more |
| `Read.DemoteReplaced` | crates/rm-engine/src/read.rs:592-613 | sorting an index array by a flag and taking by it yields what stays followed by what falls |
| `Read.FallsIffOutranked` | crates/rm-engine/src/read.rs:592-613 | what falls is exactly a corrected hit beside one of its entity and attribute that is not |
| `Read.DemotionIsStablePartition` | crates/rm-engine/src/read.rs:576-613 | a permutation; nothing that falls is ahead of anything that stays; a live hit is ahead of every corrected one of its slot; each group keeps its order |
| `ReadLaws.RunGrows` | crates/rm-engine/src/lib.rs:367-1108 | runs without a merge or an erasure only append to logs, only things heard from their start on, and never reuse an assertion id |
| `ReadLaws.ConfirmLeaves` | crates/rm-engine/src/lib.rs:615-673 | a merge moves no log of an entity it is not about |
| `ReadLaws.RunGrowsSlot` | crates/rm-engine/src/lib.rs:367-1108 | across any run that spares the slot, its log only grows, and only by things heard from the run's start on |
| `ReadLaws.PastIsFixed` | crates/rm-conform/src/invariants.rs:15-60 | what was believed about a slot as of an instant, by anyone and under any strategy, is unchanged by any run that hears only later things, does not erase that slot and merges nothing with that entity |
| `ReadLaws.ForgettingLeavesThePast` | crates/rm-engine/src/lib.rs:985-993 | asked about any instant before a forgetting takes hold, the store answers as it did |
| `ReadLaws.ForgettingAnswersAbsent` | crates/rm-engine/src/lib.rs:985-993 | asked about any instant from then on it answers a positive absence if and only if every claim that decided that instant before, and that the forgetting does not outdate on both clocks, was an absence already |
| `ReadLaws.AbsenceDecides` | crates/rm-conform/src/reference.rs:39-56 | one more absence makes the meaning absent exactly when no claim deciding the instant and at least as late says otherwise |
| `ReadLaws.StepCarries` | crates/rm-engine/src/lib.rs:615-1043 | no operation loses a version from the slot of an assertion that survives it, or changes what that assertion reads but to correct a tombstone |
| `ReadLaws.NeverRevived` | crates/rm-engine/src/lib.rs:858-890 | an assertion dropped is never standing again |
| `ReadLaws.StandingOnlyClimbs` | crates/rm-engine/src/read.rs:691-717 | across any run whatever, a surviving assertion's standing only climbs: Latest, Joined, Unsettled, Corrected |
| `Workload.TruthIsMeaning` | crates/rm-contrast/src/workload.rs:203-224 | the filter-sort-test oracle and the declarative reading of the claims are one thing |
| `Workload.StoreAnswersTruth` | crates/rm-contrast/src/workload.rs:197-224 | for every set of open-ended writes and every question the interval read answers exactly as the oracle, refusals exactly where it finds no answer |
| `Workload.RefusesExactlyTies` | crates/rm-contrast/src/workload.rs:197-224 | a read is refused if and only if two writes share the latest clocks it sees and disagree |
| `Workload.TieLeavesThePast` | crates/rm-contrast/src/workload.rs:57-68 | a history refused at the instant of its tie and answered at the instant before, where the comment says the whole read is refused |
| `Workload.FreshWrite` | crates/rm-contrast/src/workload.rs:147-170 | a write of its own instant, having begun then or at an earlier one, with a value of the alphabet or none |
| `Workload.Writes` | crates/rm-contrast/src/workload.rs:127-171 | for every stream of random words the writes fit their parameters, each at its own instant or tied with the one before; without ties no two share both clocks; without ties or backdating they arrive in order as they begin; at a hundred per cent every write after the first ties, or without ties is backdated |
| `Workload.Generate` | crates/rm-contrast/src/workload.rs:127-195 | the questions fit their parameters, and without retrospection are asked from after everything, at a hundred per cent all from instants of the history |
| `Score.Load` | crates/rm-contrast/src/score.rs:77-110 | after the loop each written entity's id holds exactly its writes in arrival order, and an entity never written reads the first id's |
| `Score.PinnedLands` | crates/rm-engine/src/lib.rs:447-474 | a pinned write cannot fail, grows one log by one version, and takes a fresh id exactly when none was pinned |
| `Score.Tally` | crates/rm-contrast/src/score.rs:129-140 | counts each mark once |
| `Score.ScoreStore` | crates/rm-contrast/src/score.rs:143-158 | the store's score is the one computed from the oracle alone |
| `Score.StoreMarksExactly` | crates/rm-contrast/src/score.rs:119-158 | a question is right or ungradeable exactly when it is about something written or its stand-in has nothing to say, ungradeable exactly when the oracle finds no answer, and declined exactly when there is an answer and the store refuses |
| `Score.StoreIsPerfectExactly` | crates/rm-contrast/src/score.rs:143-158 | nothing wrong and nothing declined if and only if every question is of that kind |
| `Score.StandInIsWrong` | crates/rm-contrast/src/score.rs:77-110 | entities 0 and 2 written and entity 1 asked about: the oracle has nothing, the store is marked wrong |
| `Score.StoreScoresPerfectly` | crates/rm-contrast/src/score.rs:143-158 | where no two writes share both clocks, every question is marked right if and only if every one is answerable |
| `Score.UngradeableAgree` | crates/rm-contrast/src/score.rs:143-173 | both stores are excused the same questions |
| `Score.Flat.Remember` | crates/rm-contrast/src/flat.rs:28-32 | asked afterwards, the key answers this value whatever it answered before, and no other key's answer moves |
| `Score.ScoreFlat` | crates/rm-contrast/src/score.rs:164-173 | the control's score is that of the last value to arrive |
| `Score.FlatMarksExactly` | crates/rm-contrast/src/score.rs:164-173 | the control is wrong exactly where there is an answer and the last value to arrive about the entity is not it, excused exactly where there is none, and never declines |
| `Score.BackdatedFoolsFlat` | crates/rm-contrast/src/score.rs:164-173 | a value that arrives last but began first: the control answers it and is wrong, the store is right |
| `Score.FlatIsPerfect` | crates/rm-contrast/src/score.rs:180-200 | heard in order, each as it begins, and asked from after everything, latest-wins is right |
| `Score.FlatScoresPerfectly` | crates/rm-contrast/src/score.rs:164-173 | so on such a workload the control gets every question right |
| `Score.Calibrated` | crates/rm-contrast/src/score.rs:180-200 | heard in order and asked from after everything, the control gets every question right, and the store does if and only if nothing was written or every question is about something written |
| `Score.Contrast` | crates/rm-contrast/src/score.rs:143-200 | a generated workload scored by both stores: excused alike, the control never declining; the store wrong nowhere if and only if all is answerable; without ties, backdating or retrospection the control is perfect, and the store is too if and only if every question has an id to read and nothing, or every queried entity, was written |
| `Prewarm.InvStep` | benches/locomo/src/cache.rs:200-230 | every atomic step of every worker keeps the invariant, whatever the provider replies |
| `Prewarm.EveryInterleavingFinishes` | benches/locomo/src/cache.rs:184-235 | in every interleaving of one or more workers: each index claimed once, `done` the prompt count, every failure counted, a first error kept exactly when something failed and being one that happened, and the cache only what was there and what was fetched |
| `Prewarm.FirstErrorStays` | benches/locomo/src/cache.rs:213-219 | in every interleaving the first error blamed is the one kept |
| `Prewarm.StepProgresses` | benches/locomo/src/cache.rs:200-230 | every step of a worker that has not stopped is progress |
| `Prewarm.EveryScheduleEnds` | benches/locomo/src/cache.rs:200-230 | at most seven steps a prompt and one a worker, whatever the schedule |
| `Prewarm.InterleavingIsInvisible` | benches/locomo/src/cache.rs:129-146 | with one deterministic provider and no key collisions the cache and the failure count do not depend on the interleaving at all |

## Left out

- ReadLaws.PastIsFixed: erasing the slot asked about, or merging its entity, may change what was believed as of an instant, by design, so runs that do either are excluded.
- Workload.Generate: the random words are an arbitrary stream, not SplitMix64's, and the parameters are required to keep the clock within 64 bits and every draw that can be reached non-empty.
- Score.ScoreStore: a question about an entity past the widest one written indexes out of range in the original, so it is required away; `Score.Contrast` gives no store score there.
- Prewarm.EveryInterleavingFinishes: the unsaved counter and the file `Cache::save` writes are not modelled; two saves can finish out of order.
- Engine.Engine.Remember: scores are an uninterpreted real per pair of records, so neither similarity weights nor floating point is modelled; ids are unbounded rather than 64 bits.
- CivilTime.DaysFromCivilCounts: the parsing of the date string and the overflow of 64-bit arithmetic at extreme years are not modelled.
- The store, the index and the ruleset are values the engine replaces rather than objects it mutates; nothing aliases them in the original.
- The store's reverse edge map is derived from the forward one and not modelled separately; `assert_resolved` and `as_of` on the store are not used by the engine's path and not modelled.
- The index keeps each vector as given: normalisation under cosine, search, ranking and boosts are left out, as is a zero vector surviving in a restored cosine index.
- Snapshots are values: JSON, the `.vec` byte layout and the errors of parsing them are left out, and the two nested snapshots are the checks their own `open` makes.
- The set of sources already read, and the read-only accessors, would only add easy members.
- A blocking key derives from one field by an arbitrary function of its value; the three concrete key formats are not spelled out.
- The recall pipeline around the filters and the final ordering: embedding, boosts and the hits' conversion.
- Embedding a turn (`prepare`) is a foreign call; its vectors arrive as an argument, fitting or not.
- The applicability generator and its seed sweeps, which the universal theorems about reach replace.
- The command line, the server, hooks, prompts, extraction, providers and reports.
