/**
 Whole runs: every state reachable from a new engine by any sequence of calls, and a reload
 between any two of them.
 */
module Runs {
  import opened Core
  import opened Ordering
  import opened Store
  import opened Resolution
  import opened EngineState
  import opened EngineInvariant
  import opened EngineLaws
  import opened MergeLaws
  import opened IngestState
  import opened IngestLaws
  import opened Persist

  datatype Op =
    | OpRemember(obs: Observation)
    | OpRememberAs(entity: Option<StableId>, pinned: Observation)
    | OpConfirm(review: ReviewId)
    | OpReject(rejected: ReviewId)
    | OpForget(forgotten: StableId, forgottenAttribute: string, forgottenAt: Timestamp, prov: Provenance)
    | OpErase(erased: StableId, erasedAttribute: string)
    | OpEraseEdges(isolated: StableId)
    | OpEdge(triple: Triple, version: EdgeVersion)
    | OpRebuild(dim: nat, metric: Metric, rows: seq<Row>)
    | OpIngest(turn: Turn, extraction: Extraction, prepared: Prepared)
    | OpReload(supplied: Ruleset)

  datatype Answer =
    | Remembering(remembered: Result<Remembered, EngineError>)
    | Pinning(pin: Result<Pinned, EngineError>)
    | Merging(survivor: Result<StableId, EngineError>)
    | Counting(count: Result<nat, EngineError>)
    | Doing(done: Result<(), EngineError>)
    | Rebuilding(rebuilt: bool)
    | Ingesting(ingested: Result<Ingested, EngineError>)
    | Reloading(accepted: bool)

  ghost function Apply(rs: Ruleset, s: State, op: Op): (State, Answer) {
    match op
    case OpRemember(obs) => var r := Remember(rs, s, obs); (r.state, Remembering(r.result))
    case OpRememberAs(entity, obs) => var r := RememberAs(rs, s, entity, obs); (r.state, Pinning(r.result))
    case OpConfirm(review) => var r := Confirm(rs, s, review); (r.state, Merging(r.result))
    case OpReject(review) => var r := Reject(s, review); (r.state, Doing(r.result))
    case OpForget(e, a, at, prov) => var r := Forget(s, e, a, at, prov); (r.state, Doing(r.result))
    case OpErase(e, a) => var r := Erase(s, e, a); (r.state, Counting(r.result))
    case OpEraseEdges(e) => var r := EraseEdges(s, e); (r.state, Counting(r.result))
    case OpEdge(t, v) => var r := PushEdge(s, t, v); (r.state, Doing(r.result))
    case OpRebuild(dim, metric, rows) =>
      (RebuiltIndex(s, dim, metric, rows), Rebuilding(Rebuildable(s, dim, metric, rows)))
    case OpIngest(turn, x, p) => var r := Ingest(rs, s, turn, x, p); (r.state, Ingesting(r.result))
    case OpReload(supplied) => (Reloaded(supplied, s), Reloading(Acceptable(Snapshot(s))))
  }

  /** The ruleset in force after an operation: a restart that is accepted brings its own. */
  function Ruling(rs: Ruleset, s: State, op: Op): Ruleset {
    if op.OpReload? && Acceptable(Snapshot(s)) then op.supplied else rs
  }

  /** The engine a restart leaves; where the snapshot is refused, the one that wrote it goes on. */
  function Reloaded(rs: Ruleset, s: State): State {
    if Acceptable(Snapshot(s)) then Restored(rs, Snapshot(s)) else s
  }

  ghost function Run(rs: Ruleset, s: State, ops: seq<Op>): State
    decreases |ops|
  {
    if ops == [] then s else Run(Ruling(rs, s, ops[0]), Apply(rs, s, ops[0]).0, ops[1..])
  }

  /** The ruleset a run ends under. */
  ghost function RulingAfter(rs: Ruleset, s: State, ops: seq<Op>): Ruleset
    decreases |ops|
  {
    if ops == [] then rs else RulingAfter(Ruling(rs, s, ops[0]), Apply(rs, s, ops[0]).0, ops[1..])
  }

  ghost function Answers(rs: Ruleset, s: State, ops: seq<Op>): seq<Answer>
    decreases |ops|
  {
    if ops == [] then []
    else
      var (next, answer) := Apply(rs, s, ops[0]);
      [answer] + Answers(Ruling(rs, s, ops[0]), next, ops[1..])
  }

  // ----- the invariant over runs

  lemma StepKeeps(rs: Ruleset, s: State, op: Op)
    requires Sound(rs, s)
    ensures Sound(Ruling(rs, s, op), Apply(rs, s, op).0)
    ensures Faithful(s) ==> Faithful(Apply(rs, s, op).0)
  {
    hide Sound, Faithful, Remember, RememberAs, Confirm, Reject, Forget, Erase, EraseEdges, PushEdge, RebuiltIndex,
      Ingest, Reloaded, Acceptable;
    match op
    case OpRemember(obs) => RememberKeeps(rs, s, obs);
    case OpRememberAs(entity, obs) => RememberAsKeeps(rs, s, entity, obs);
    case OpConfirm(review) => ConfirmKeeps(rs, s, review);
    case OpReject(review) => RejectKeeps(rs, s, review);
    case OpForget(e, a, at, prov) => ForgetKeeps(rs, s, e, a, at, prov);
    case OpErase(e, a) => EraseKeeps(rs, s, e, a);
    case OpEraseEdges(e) => EraseEdgesKeeps(rs, s, e);
    case OpEdge(t, v) => PushEdgeKeeps(rs, s, t, v);
    case OpRebuild(dim, metric, rows) => RebuildKeeps(rs, s, dim, metric, rows);
    case OpIngest(turn, x, p) => IngestKeeps(rs, s, turn, x, p);
    case OpReload(supplied) => ReloadKeeps(rs, s, supplied);
  }

  /** Under whatever ruleset a restart brings, the invariants stand and only the derived map moves. */
  lemma ReloadKeeps(rs: Ruleset, s: State, supplied: Ruleset)
    requires Sound(rs, s)
    ensures Sound(Ruling(rs, s, OpReload(supplied)), Reloaded(supplied, s))
    ensures Faithful(s) ==> Faithful(Reloaded(supplied, s))
    ensures Reloaded(supplied, s) == s.(blocks := Reloaded(supplied, s).blocks)
  {
    hide Sound, Acceptable, RebuiltBlocks, TombstonesCorrect;
    if Acceptable(Snapshot(s)) { AcceptedIsSound(supplied, Snapshot(s)); }
  }

  lemma {:induction false} RunKeeps(rs: Ruleset, s: State, ops: seq<Op>)
    requires Sound(rs, s)
    ensures Sound(RulingAfter(rs, s, ops), Run(rs, s, ops))
    ensures Faithful(s) ==> Faithful(Run(rs, s, ops))
    decreases |ops|
  {
    hide Sound, Faithful, Apply, Ruling;
    if ops != [] {
      StepKeeps(rs, s, ops[0]);
      RunKeeps(Ruling(rs, s, ops[0]), Apply(rs, s, ops[0]).0, ops[1..]);
    }
  }

  /** Every state any sequence of calls reaches from a new engine, under the ruleset it ends with. */
  lemma ReachableIsFaithful(rs: Ruleset, index: VectorIndex, ops: seq<Op>)
    requires index.rows == map[]
    ensures var s := Run(rs, New(index), ops); Sound(RulingAfter(rs, New(index), ops), s) && Faithful(s)
  {
    NewIsSound(rs, index);
    RunKeeps(rs, New(index), ops);
  }

  /** However it was written, and whatever has been merged since, a stored tombstone corrects. */
  lemma StoredTombstonesCorrect(rs: Ruleset, index: VectorIndex, ops: seq<Op>, entity: StableId, attribute: string,
                                i: nat)
    requires index.rows == map[]
    requires i < |Run(rs, New(index), ops).store.History(entity, attribute)|
    ensures var v := Run(rs, New(index), ops).store.History(entity, attribute)[i];
      v.value.None? ==> v.supersession == Corrects
  {
    hide Run, Sound;
    ReachableIsFaithful(rs, index, ops);
    var s := Run(rs, New(index), ops);
    assert LogCorrects(s.store.entities[entity].attributes[attribute]);
  }

  /** After any run, a merge moves every fact untouched: logs concatenated, readings unchanged. */
  lemma MergeAfterAnyRun(rs: Ruleset, index: VectorIndex, ops: seq<Op>, review: ReviewId, kept: StableId,
                         absorbed: StableId)
    requires index.rows == map[]
    requires Merges(Run(rs, New(index), ops), review, kept, absorbed)
    ensures var s := Run(rs, New(index), ops);
      var s' := Confirm(RulingAfter(rs, New(index), ops), s, review).state;
      && (forall a :: s'.store.History(kept, a) == s.store.History(kept, a) + s.store.History(absorbed, a))
      && s'.assertions.Keys == s.assertions.Keys
      && (forall id :: id in s.assertions ==> Resolve(s, id).Some? && Resolve(s', id) == Resolve(s, id))
  {
    hide Run, Sound, Faithful, Confirm;
    ReachableIsFaithful(rs, index, ops);
    FaithfulMergeKeepsEverything(RulingAfter(rs, New(index), ops), Run(rs, New(index), ops), review, kept, absorbed);
  }

  /** A snapshot no run of the engine's own writes: a tombstone that claims nothing about its slot. */
  function Legacy(): Persisted {
    var prov := Provenance(UserAssertion, 0, "");
    var silent := Version(None, Since(0), prov, Unstated, None);
    Persisted(
      MemoryStore(map[0 := Entity("person", 0, map[]), 1 := Entity("person", 0, map["pet" := [silent]])], 2, map[]),
      VectorIndex(1, L2, map[7 := [Finite(0.0)]]),
      map[0 := map["name" := "Ann"], 1 := map["name" := "Anna"]],
      map[7 := AssertionRef(1, "pet", 0)],
      map[3 := PendingReview(3, 0, 1, 0.0)],
      {}, 8, 4)
  }

  lemma LegacyIsAccepted()
    ensures Acceptable(Legacy())
  {
    assert |Legacy().index.rows| == 1 && |Legacy().assertions| == 1;
  }

  /** The failing input: restore accepts it, and confirming its one question changes a reading. */
  lemma LegacyMergeRewrites(rs: Ruleset)
    ensures var s := Restored(rs, Legacy());
      var s' := Confirm(rs, s, 3).state;
      && Acceptable(Legacy()) && Merges(s, 3, 0, 1)
      && Resolve(s, 7).Some? && Resolve(s, 7).value.supersession == Unstated
      && Resolve(s', 7).Some? && Resolve(s', 7).value.supersession == Corrects
      && s'.store.History(0, "pet") != s.store.History(0, "pet") + s.store.History(1, "pet")
  {
    hide Sound, Confirm, Acceptable, RebuiltBlocks, Legacy, Restored;
    LegacyIsAccepted();
    AcceptedIsSound(rs, Legacy());
    LegacyHolds(rs);
    var s := Restored(rs, Legacy());
    ConfirmKeepsReadings(rs, s, 3, 0, 1);
    assert ReadsAsBefore(s, Confirm(rs, s, 3).state, 7, 0, 1);
    hide MemoryStore.History, ReadsAsBefore;
    RewrittenDiffers(s.store.History(0, "pet"), s.store.History(1, "pet"));
  }

  /** What the snapshot holds, and what its one assertion reads. */
  lemma LegacyHolds(rs: Ruleset)
    ensures var s := Restored(rs, Legacy());
      var log := s.store.History(1, "pet");
      && Merges(s, 3, 0, 1)
      && 7 in s.assertions && s.assertions[7].entity == 1
      && |log| == 1 && log[0].value.None? && log[0].supersession == Unstated
      && Resolve(s, 7) == Some(log[0])
  {
    hide RebuiltBlocks;
  }

  lemma RewrittenDiffers(own: seq<Version>, log: seq<Version>)
    requires |log| == 1 && log[0].value.None? && log[0].supersession == Unstated
    ensures own + WrittenAll(log) != own + log
  {
    assert (own + WrittenAll(log))[|own|] == Written(log[0]) && (own + log)[|own|] == log[0];
  }

  // ----- a closure that ends nothing

  function Known(name: string): Observation {
    Observation("thing", map["name" := name], "kind", Some("thing"), Since(0), Provenance(UserAssertion, 0, ""),
                Unstated, None, [Finite(1.0)])
  }

  function WorksAt(heard: Timestamp): EdgeVersion {
    EdgeVersion(true, Since(0), Provenance(UserAssertion, heard, ""))
  }

  /** Two entities, an edge between them, and the edge heard of once more. */
  function HeardTwice(first: Timestamp, again: Timestamp): seq<Op> {
    var t := Triple(0, "works_at", 1);
    [OpRememberAs(None, Known("Ann")), OpRememberAs(None, Known("Acme")),
     OpEdge(t, WorksAt(first)), OpEdge(t, WorksAt(again))]
  }

  lemma PinnedIsNew(rs: Ruleset, s: State, obs: Observation)
    requires Sound(rs, s) && s.index.Check(obs.embedding).None?
    ensures var s' := RememberAs(rs, s, None, obs).state;
      && Sound(rs, s') && s'.store.edges == s.store.edges
      && s'.identity.Keys == s.identity.Keys + {s.store.nextId} && s'.store.nextId == s.store.nextId + 1
      && s'.index.dim == s.index.dim && s'.index.metric == s.index.metric
  {
    hide Sound, Write, CreateEntity, VectorIndex.Check;
    CreateKeeps(rs, s, obs);
    var (created, id) := CreateEntity(rs, s, obs);
    assert created.store.nextId == s.store.nextId + 1 by { CreateCounts(rs, s, obs); }
    WriteKeeps(rs, created, id, obs);
    assert Write(created, id, obs).state.store.nextId == created.store.nextId by { WriteCounts(created, id, obs); }
  }

  lemma WriteCounts(s: State, entity: StableId, obs: Observation)
    ensures Write(s, entity, obs).state.store.nextId == s.store.nextId
  {
  }

  lemma TwoKnown(rs: Ruleset, s: State)
    requires s == New(VectorIndex(1, L2, map[]))
    ensures var one := RememberAs(rs, s, None, Known("Ann")).state;
      var two := RememberAs(rs, one, None, Known("Acme")).state;
      && Sound(rs, two) && two.identity.Keys == {0, 1} && {0, 1} <= two.store.entities.Keys
      && two.store.edges == map[] && two.index.Check([Finite(1.0)]).None?
  {
    NewIsSound(rs, s.index);
    hide BlocksDerived, RememberAs;
    PinnedIsNew(rs, s, Known("Ann"));
    PinnedIsNew(rs, RememberAs(rs, s, None, Known("Ann")).state, Known("Acme"));
  }

  lemma HeardTwiceLeaves(rs: Ruleset, first: Timestamp, again: Timestamp)
    ensures var s, t := Run(rs, New(VectorIndex(1, L2, map[])), HeardTwice(first, again)), Triple(0, "works_at", 1);
      && Sound(rs, s) && s.identity.Keys == {0, 1}
      && s.index.Check([Finite(1.0)]).None?
      && EdgeLog(s.store.edges, t) == [WorksAt(first), WorksAt(again)]
  {
    hide Sound, RememberAs, PushEdge, New, Run, VectorIndex.Check;
    var s, t := New(VectorIndex(1, L2, map[])), Triple(0, "works_at", 1);
    TwoKnown(rs, s);
    FourSteps(rs, s, OpRememberAs(None, Known("Ann")), OpRememberAs(None, Known("Acme")),
              OpEdge(t, WorksAt(first)), OpEdge(t, WorksAt(again)));
    hide Known;
    var two := RememberAs(rs, RememberAs(rs, s, None, Known("Ann")).state, None, Known("Acme")).state;
    EdgeAppends(rs, two, t, WorksAt(first));
    EdgeAppends(rs, PushEdge(two, t, WorksAt(first)).state, t, WorksAt(again));
  }

  lemma FourSteps(rs: Ruleset, s: State, a: Op, b: Op, c: Op, d: Op)
    requires !a.OpReload? && !b.OpReload? && !c.OpReload? && !d.OpReload?
    ensures Run(rs, s, [a, b, c, d]) == Apply(rs, Apply(rs, Apply(rs, Apply(rs, s, a).0, b).0, c).0, d).0
  {
    hide Apply, Run;
    StepThen(rs, s, a, [b, c, d]);
    StepThen(rs, Apply(rs, s, a).0, b, [c, d]);
    StepThen(rs, Apply(rs, Apply(rs, s, a).0, b).0, c, [d]);
    StepThen(rs, Apply(rs, Apply(rs, Apply(rs, s, a).0, b).0, c).0, d, []);
    assert [a] + [b, c, d] == [a, b, c, d] && [b] + [c, d] == [b, c, d] && [c] + [d] == [c, d] && [d] + [] == [d];
  }

  lemma StepThen(rs: Ruleset, s: State, op: Op, rest: seq<Op>)
    requires !op.OpReload?
    ensures Run(rs, s, [op] + rest) == Run(rs, Apply(rs, s, op).0, rest)
    ensures forall t :: Run(rs, t, []) == t
  {
    hide Apply;
    assert ([op] + rest)[1..] == rest;
  }

  lemma LatestOfTwo(first: Timestamp, again: Timestamp)
    requires first <= again
    ensures var log := [WorksAt(first), WorksAt(again)];
      InForce(log, 0, MAX_TIME) && HeardInForce(log, 0) == again
  {
    var log := [WorksAt(first), WorksAt(again)];
    assert Qualifies(log[1], 0, MAX_TIME) && Qualifies(log[0], 0, MAX_TIME);
  }

  /**
   The failing input: an engine that was told twice of one edge, then hears a turn close it. The
   answer always lists the edge as closed, and the edge is still in force at the closure's instant
   whenever the turn was observed before the second telling.
   */
  lemma ClosureOutranked(turn: Turn, first: Timestamp, again: Timestamp)
    requires first <= again
    ensures var s := Run(Credulous(), New(VectorIndex(1, L2, map[])), HeardTwice(first, again));
      var r := Ingest(Credulous(), s, turn, OneClosure(), OneVector());
      && r.result.Ok? && Closed(0, "works_at", 1, "left") in r.result.value.closed
      && (InForce(EdgeLog(r.state.store.edges, Triple(0, "works_at", 1)), 0, MAX_TIME) <==> turn.observedAt < again)
  {
    hide Run, Sound, InForce, EdgeLog, BestMatch, Credulous, OneClosure, OneVector, HeardTwice, VectorIndex.Check;
    HeardTwiceLeaves(Credulous(), first, again);
    var s := Run(Credulous(), New(VectorIndex(1, L2, map[])), HeardTwice(first, again));
    LowestMatches(s, MentionRecord(Mention("person", "Ann")), 0);
    LatestOfTwo(first, again);
    OneClosureCloses(Credulous(), s, turn, 0, 1);
  }

  // ----- a reload is invisible

  /** Two rulesets no engine can tell apart: the same keys, the same scores, the same bands. */
  ghost predicate Interchangeable(rs: Ruleset, rt: Ruleset) {
    && (rs.blocking == [] <==> rt.blocking == [])
    && (forall r, k :: k in rs.KeysFor(r) <==> k in rt.KeysFor(r))
    && (forall a, b :: rs.score(a, b) == rt.score(a, b))
    && (forall x :: rs.Decide(x) == rt.Decide(x))
  }

  /** All but the derived map equal; the map derived on both sides, by rulesets that derive alike. */
  ghost predicate Alike(rs: Ruleset, s: State, rt: Ruleset, t: State) {
    && Interchangeable(rs, rt)
    && SameBut(s, t)
    && Sound(rs, s) && Sound(rt, t)
  }

  /** The parts of a state an operation computes without looking at the blocks. */
  ghost predicate SameBut(s: State, t: State) {
    t == s.(blocks := t.blocks)
  }

  lemma AlikeCandidates(rs: Ruleset, s: State, rt: Ruleset, t: State, mention: Record)
    requires Alike(rs, s, rt, t)
    ensures CandidateSet(rt, t, mention) == CandidateSet(rs, s, mention)
  {
    CandidatesAreDerived(rs, s, mention);
    CandidatesAreDerived(rt, t, mention);
    hide CandidateSet, BlocksDerived, KeysFrom, Ruleset.Decide;
  }

  lemma AlikeBands(rs: Ruleset, s: State, rt: Ruleset, t: State, mention: Record, id: StableId)
    requires Interchangeable(rs, rt) && SameBut(s, t)
    requires CandidateSet(rt, t, mention) == CandidateSet(rs, s, mention)
    ensures forall band :: Banded(rt, t, mention, id, band) <==> Banded(rs, s, mention, id, band)
    ensures id in s.identity ==> ScoreOf(rt, t, mention, id) == ScoreOf(rs, s, mention, id)
  {
    hide CandidateSet, Ruleset.KeysFor, Ruleset.Decide;
  }

  lemma AlikeMatches(rs: Ruleset, s: State, rt: Ruleset, t: State, mention: Record)
    requires Alike(rs, s, rt, t)
    ensures BestMatch(rt, t, mention) == BestMatch(rs, s, mention)
  {
    AlikeCandidates(rs, s, rt, t, mention);
    hide CandidateSet, Sound, Interchangeable, ScoreOf, Wins;
    forall id ensures Wins(rt, t, mention, id) <==> Wins(rs, s, mention, id) {
      AlikeWins(rs, s, rt, t, mention, id);
    }
    if id :| Wins(rs, s, mention, id) {
      BestMatchIs(rs, s, mention, id);
      BestMatchIs(rt, t, mention, id);
    }
  }

  lemma AlikeWins(rs: Ruleset, s: State, rt: Ruleset, t: State, mention: Record, id: StableId)
    requires Interchangeable(rs, rt) && SameBut(s, t)
    requires CandidateSet(rt, t, mention) == CandidateSet(rs, s, mention)
    ensures Wins(rt, t, mention, id) <==> Wins(rs, s, mention, id)
  {
    hide CandidateSet, Interchangeable, ScoreOf;
    forall other { AlikeBands(rs, s, rt, t, mention, other); }
  }

  lemma AlikeWrites(s: State, t: State, entity: StableId, obs: Observation)
    requires SameBut(s, t)
    ensures SameBut(Write(s, entity, obs).state, Write(t, entity, obs).state)
    ensures Write(t, entity, obs).result == Write(s, entity, obs).result
  {
  }

  lemma AlikeFolds(rs: Ruleset, s: State, rt: Ruleset, t: State, entity: StableId, mention: Record)
    requires SameBut(s, t)
    ensures SameBut(FoldIdentity(rs, s, entity, mention), FoldIdentity(rt, t, entity, mention))
  {
  }

  lemma AlikeCreates(rs: Ruleset, s: State, rt: Ruleset, t: State, obs: Observation)
    requires SameBut(s, t)
    ensures SameBut(CreateEntity(rs, s, obs).0, CreateEntity(rt, t, obs).0)
    ensures CreateEntity(rt, t, obs).1 == CreateEntity(rs, s, obs).1
  {
  }

  lemma AlikeAsks(rs: Ruleset, s: State, rt: Ruleset, t: State, s1: State, t1: State, entity: StableId, mention: Record)
    requires Interchangeable(rs, rt) && SameBut(s, t) && SameBut(s1, t1)
    requires CandidateSet(rt, t, mention) == CandidateSet(rs, s, mention)
    ensures Askable(rt, t, t1, entity, mention) == Askable(rs, s, s1, entity, mention)
  {
    hide CandidateSet, InOrder, Ruleset.KeysFor, Ruleset.Decide;
    var a := set id | id in CandidateSet(rs, s, mention) &&
      Banded(rs, s, mention, id, Review) && !AlreadyRejected(s1, entity, id);
    var b := set id | id in CandidateSet(rt, t, mention) &&
      Banded(rt, t, mention, id, Review) && !AlreadyRejected(t1, entity, id);
    assert a == b;
  }

  lemma AlikeQuestions(rs: Ruleset, s: State, rt: Ruleset, t: State, entity: StableId, mention: Record,
                       others: seq<StableId>, first: ReviewId)
    requires Interchangeable(rs, rt) && SameBut(s, t) && forall id :: id in others ==> id in s.identity
    ensures Questions(rt, t, entity, mention, others, first) == Questions(rs, s, entity, mention, others, first)
  {
  }

  lemma AlikeRemembers(rs: Ruleset, s: State, rt: Ruleset, t: State, obs: Observation)
    requires Alike(rs, s, rt, t)
    ensures SameBut(Remember(rs, s, obs).state, Remember(rt, t, obs).state)
    ensures Remember(rt, t, obs).result == Remember(rs, s, obs).result
  {
    AlikeMatches(rs, s, rt, t, obs.mention);
    hide Sound, Interchangeable, BestMatch, Write, FoldIdentity, VectorIndex.Check, CreateEntity;
    match BestMatch(rs, s, obs.mention)
    case Some(entity) =>
      AlikeWrites(s, t, entity, obs);
      AlikeFolds(rs, Write(s, entity, obs).state, rt, Write(t, entity, obs).state, entity, obs.mention);
    case None =>
      if s.index.Check(obs.embedding).None? {
        AlikeFresh(rs, s, rt, t, obs);
      }
  }

  lemma AlikeFresh(rs: Ruleset, s: State, rt: Ruleset, t: State, obs: Observation)
    requires Alike(rs, s, rt, t) && s.index.Check(obs.embedding).None?
    requires BestMatch(rs, s, obs.mention).None? && BestMatch(rt, t, obs.mention).None?
    ensures SameBut(Remember(rs, s, obs).state, Remember(rt, t, obs).state)
    ensures Remember(rt, t, obs).result == Remember(rs, s, obs).result
  {
    AlikeCandidates(rs, s, rt, t, obs.mention);
    hide Sound, Faithful, Interchangeable, BestMatch, Write, CreateEntity, Askable, Questions, CandidateSet,
      VectorIndex.Check, Remember, Numbers;
    FreshShape(rs, s, obs);
    FreshShape(rt, t, obs);
    AlikeCreates(rs, s, rt, t, obs);
    var (s1, id) := CreateEntity(rs, s, obs);
    var t1 := CreateEntity(rt, t, obs).0;
    AlikeWrites(s1, t1, id, obs);
    AlikeAsks(rs, s, rt, t, s1, t1, id, obs.mention);
    AlikeQuestions(rs, s, rt, t, id, obs.mention, Askable(rs, s, s1, id, obs.mention), s.nextReview);
  }

  lemma AlikeRememberAs(rs: Ruleset, s: State, rt: Ruleset, t: State, entity: Option<StableId>, obs: Observation)
    requires SameBut(s, t)
    ensures SameBut(RememberAs(rs, s, entity, obs).state, RememberAs(rt, t, entity, obs).state)
    ensures RememberAs(rt, t, entity, obs).result == RememberAs(rs, s, entity, obs).result
  {
    hide Write, CreateEntity, FoldIdentity, VectorIndex.Check;
    if entity.Some? {
      AlikeFolds(rs, s, rt, t, entity.value, obs.mention);
      AlikeWrites(FoldIdentity(rs, s, entity.value, obs.mention), FoldIdentity(rt, t, entity.value, obs.mention),
                  entity.value, obs);
    } else {
      AlikeCreates(rs, s, rt, t, obs);
      var (s1, id) := CreateEntity(rs, s, obs);
      AlikeWrites(s1, CreateEntity(rt, t, obs).0, id, obs);
    }
  }

  lemma AlikeConfirms(rs: Ruleset, s: State, rt: Ruleset, t: State, review: ReviewId)
    requires SameBut(s, t)
    ensures SameBut(Confirm(rs, s, review).state, Confirm(rt, t, review).state)
    ensures Confirm(rt, t, review).result == Confirm(rs, s, review).result
  {
    hide MergedStore, MergedReviews, MergedRejections, Adopted, MergedIdentity;
    if review in s.review {
      var pair := PairOf(s.review[review].a, s.review[review].b);
      var kept, absorbed := pair.lower, pair.higher;
      if kept != absorbed && kept in s.store.entities && absorbed in s.store.entities {
        var assertions := map id | id in s.assertions :: Adopted(s.assertions[id], s.store, kept, absorbed);
        var store := MergedStore(s.store, kept, absorbed);
        AlikeMerges(rs, s.(review := s.review - {review}, store := store, assertions := assertions),
                    rt, t.(review := s.review - {review}, store := store, assertions := assertions), kept, absorbed);
      }
    }
  }

  lemma AlikeMerges(rs: Ruleset, s: State, rt: Ruleset, t: State, kept: StableId, absorbed: StableId)
    requires SameBut(s, t)
    ensures SameBut(MergedIdentity(rs, s, kept, absorbed), MergedIdentity(rt, t, kept, absorbed))
  {
  }

  lemma AlikeRejects(s: State, t: State, review: ReviewId)
    requires SameBut(s, t)
    ensures SameBut(Reject(s, review).state, Reject(t, review).state)
    ensures Reject(t, review).result == Reject(s, review).result
  {
  }

  lemma AlikeForgets(s: State, t: State, entity: StableId, attribute: string, at: Timestamp, prov: Provenance)
    requires SameBut(s, t)
    ensures SameBut(Forget(s, entity, attribute, at, prov).state, Forget(t, entity, attribute, at, prov).state)
    ensures Forget(t, entity, attribute, at, prov).result == Forget(s, entity, attribute, at, prov).result
    ensures SameBut(Erase(s, entity, attribute).state, Erase(t, entity, attribute).state)
    ensures Erase(t, entity, attribute).result == Erase(s, entity, attribute).result
  {
  }

  lemma AlikeRest(s: State, t: State, entity: StableId, dim: nat, metric: Metric, rows: seq<Row>)
    requires SameBut(s, t)
    ensures SameBut(EraseEdges(s, entity).state, EraseEdges(t, entity).state)
    ensures EraseEdges(t, entity).result == EraseEdges(s, entity).result
    ensures SameBut(RebuiltIndex(s, dim, metric, rows), RebuiltIndex(t, dim, metric, rows))
    ensures Rebuildable(t, dim, metric, rows) == Rebuildable(s, dim, metric, rows)
  {
  }

  lemma {:induction false} AlikeMentions(rs: Ruleset, s: State, rt: Ruleset, t: State, turn: Turn, x: Extraction,
                                         p: Prepared, n: nat)
    requires Alike(rs, s, rt, t) && CountsMatch(x, p) && n <= |x.mentions|
    ensures var a, b := AfterMentions(rs, s, turn, x, p, n), AfterMentions(rt, t, turn, x, p, n);
      && Alike(rs, a.state, rt, b.state) && b.out == a.out && b.stopped == a.stopped
  {
    hide Sound, Faithful, Remember, Interchangeable;
    if n > 0 {
      AlikeMentions(rs, s, rt, t, turn, x, p, n - 1);
      var a, b := AfterMentions(rs, s, turn, x, p, n - 1), AfterMentions(rt, t, turn, x, p, n - 1);
      if a.stopped.None? {
        var obs := MentionObservation(turn, x.mentions[n - 1], p.mentions[n - 1]);
        AlikeRemembers(rs, a.state, rt, b.state, obs);
        RememberKeeps(rs, a.state, obs);
        RememberKeeps(rt, b.state, obs);
      }
    }
  }

  /** Two progress records that differ only in the blocks of their states. */
  ghost predicate InStep(a: Progress, b: Progress) {
    SameBut(a.state, b.state) && b.out == a.out && b.stopped == a.stopped
  }

  lemma {:induction false} AlikeFacts(turn: Turn, x: Extraction, p: Prepared, a: Progress, b: Progress, n: nat)
    requires CountsMatch(x, p) && n <= |x.facts| && ValidExtraction(x) && InStep(a, b)
    requires a.stopped.None? ==> Placed(x, a.out)
    ensures InStep(AfterFacts(turn, x, p, a, n), AfterFacts(turn, x, p, b, n))
  {
    hide Write;
    if n > 0 {
      AlikeFacts(turn, x, p, a, b, n - 1);
      var so, to := AfterFacts(turn, x, p, a, n - 1), AfterFacts(turn, x, p, b, n - 1);
      if so.stopped.None? {
        assert x.facts[n - 1] in x.facts;
        var f := x.facts[n - 1];
        AlikeWrites(so.state, to.state, so.out.entities[f.subject],
                    FactObservation(turn, x.mentions[f.subject], f, p.facts[n - 1]));
      }
    }
  }

  lemma AlikeEdges(s: State, t: State, triple: Triple, v: EdgeVersion)
    requires SameBut(s, t)
    ensures SameBut(PushEdge(s, triple, v).state, PushEdge(t, triple, v).state)
    ensures PushEdge(t, triple, v).result == PushEdge(s, triple, v).result
  {
  }

  lemma {:induction false} AlikeRelations(turn: Turn, x: Extraction, a: Progress, b: Progress, n: nat)
    requires n <= |x.relations| && ValidExtraction(x) && InStep(a, b)
    requires a.stopped.None? ==> Placed(x, a.out)
    ensures InStep(AfterRelations(turn, x, a, n), AfterRelations(turn, x, b, n))
  {
    hide PushEdge;
    if n > 0 {
      AlikeRelations(turn, x, a, b, n - 1);
      var so, to := AfterRelations(turn, x, a, n - 1), AfterRelations(turn, x, b, n - 1);
      if so.stopped.None? {
        assert x.relations[n - 1] in x.relations;
        var r := x.relations[n - 1];
        AlikeEdges(so.state, to.state, RelationTriple(x, so.out.entities, r),
                   EdgeVersion(true, Since(r.validFrom), TurnProvenance(turn)));
      }
    }
  }

  lemma {:induction false} AlikeClosing(turn: Turn, c: Closure, subject: StableId, doomed: seq<StableId>,
                                        a: Progress, b: Progress, n: nat)
    requires n <= |doomed| && InStep(a, b)
    ensures InStep(AfterClosing(turn, c, subject, doomed, a, n), AfterClosing(turn, c, subject, doomed, b, n))
  {
    hide PushEdge;
    if n > 0 {
      AlikeClosing(turn, c, subject, doomed, a, b, n - 1);
      AlikeEdges(AfterClosing(turn, c, subject, doomed, a, n - 1).state,
                 AfterClosing(turn, c, subject, doomed, b, n - 1).state,
                 Triple(subject, c.predicate_, doomed[n - 1]), ClosingVersion(turn, c));
    }
  }

  lemma {:induction false} AlikeClosures(turn: Turn, x: Extraction, entities: seq<StableId>, a: Progress, b: Progress,
                                         n: nat)
    requires n <= |x.closures| && ValidExtraction(x) && |entities| == |x.mentions| && InStep(a, b)
    ensures InStep(AfterClosures(turn, x, entities, a, n), AfterClosures(turn, x, entities, b, n))
  {
    hide AfterClosing, InForce, InOrder;
    if n > 0 {
      AlikeClosures(turn, x, entities, a, b, n - 1);
      var so, to := AfterClosures(turn, x, entities, a, n - 1), AfterClosures(turn, x, entities, b, n - 1);
      assert x.closures[n - 1] in x.closures;
      var c := x.closures[n - 1];
      var spared := Spared(x, entities, entities[c.subject], c.predicate_);
      assert Doomed(to.state, spared, entities[c.subject], c) == Doomed(so.state, spared, entities[c.subject], c);
      AlikeClosing(turn, c, entities[c.subject], Doomed(so.state, spared, entities[c.subject], c), so, to,
                   |Doomed(so.state, spared, entities[c.subject], c)|);
    }
  }

  lemma AlikeIngests(rs: Ruleset, s: State, rt: Ruleset, t: State, turn: Turn, x: Extraction, p: Prepared)
    requires Alike(rs, s, rt, t)
    ensures SameBut(Ingest(rs, s, turn, x, p).state, Ingest(rt, t, turn, x, p).state)
    ensures Ingest(rt, t, turn, x, p).result == Ingest(rs, s, turn, x, p).result
  {
    hide Sound, Interchangeable, FirstComplaint, AfterMentions, AfterFacts, AfterRelations, AfterClosures;
    NoComplaintIffValid(x);
    if ValidExtraction(x) && CountsMatch(x, p) {
      hide ValidExtraction;
      AlikeMentions(rs, s, rt, t, turn, x, p, |x.mentions|);
      MentionsPlaced(rs, s, turn, x, p, |x.mentions|);
      MentionsPlaced(rt, t, turn, x, p, |x.mentions|);
      var a, b := AfterMentions(rs, s, turn, x, p, |x.mentions|), AfterMentions(rt, t, turn, x, p, |x.mentions|);
      AlikeFacts(turn, x, p, a, b, |x.facts|);
      var c, d := AfterFacts(turn, x, p, a, |x.facts|), AfterFacts(turn, x, p, b, |x.facts|);
      AlikeRelations(turn, x, c, d, |x.relations|);
      var e, f := AfterRelations(turn, x, c, |x.relations|), AfterRelations(turn, x, d, |x.relations|);
      if e.stopped.None? {
        AlikeClosures(turn, x, e.out.entities, e, f, |x.closures|);
      }
    }
  }

  lemma AlikeReloads(supplied: Ruleset, s: State, t: State)
    requires SameBut(s, t)
    ensures SameBut(Reloaded(supplied, s), Reloaded(supplied, t))
    ensures Acceptable(Snapshot(t)) == Acceptable(Snapshot(s))
  {
    hide Acceptable, RebuiltBlocks;
    assert Snapshot(t) == Snapshot(s);
  }

  lemma StepsAlike(rs: Ruleset, s: State, rt: Ruleset, t: State, op: Op)
    requires Alike(rs, s, rt, t)
    ensures Alike(Ruling(rs, s, op), Apply(rs, s, op).0, Ruling(rt, t, op), Apply(rt, t, op).0)
    ensures Apply(rt, t, op).1 == Apply(rs, s, op).1
  {
    StepKeeps(rs, s, op);
    StepKeeps(rt, t, op);
    RulingsAlike(rs, s, rt, t, op);
    StepsAnswerAlike(rs, s, rt, t, op);
    hide Sound, Interchangeable, Ruling, Apply;
  }

  lemma StepsAnswerAlike(rs: Ruleset, s: State, rt: Ruleset, t: State, op: Op)
    requires Alike(rs, s, rt, t)
    ensures SameBut(Apply(rs, s, op).0, Apply(rt, t, op).0)
    ensures Apply(rt, t, op).1 == Apply(rs, s, op).1
  {
    hide Sound, Interchangeable, Ruling, Remember, RememberAs, Confirm, Reject, Forget, Erase, EraseEdges, PushEdge,
      RebuiltIndex, Rebuildable, Ingest, Reloaded, Acceptable;
    match op
    case OpRemember(obs) => AlikeRemembers(rs, s, rt, t, obs);
    case OpRememberAs(entity, obs) => AlikeRememberAs(rs, s, rt, t, entity, obs);
    case OpConfirm(review) => AlikeConfirms(rs, s, rt, t, review);
    case OpReject(review) => AlikeRejects(s, t, review);
    case OpForget(e, a, at, prov) => AlikeForgets(s, t, e, a, at, prov);
    case OpErase(e, a) => AlikeForgets(s, t, e, a, 0, Provenance(UserAssertion, 0, ""));
    case OpEraseEdges(e) => AlikeRest(s, t, e, 0, Cosine, []);
    case OpEdge(triple, v) => AlikeEdges(s, t, triple, v);
    case OpRebuild(dim, metric, rows) => AlikeRest(s, t, 0, dim, metric, rows);
    case OpIngest(turn, x, p) => AlikeIngests(rs, s, rt, t, turn, x, p);
    case OpReload(supplied) => AlikeReloads(supplied, s, t);
  }

  lemma RulingsAlike(rs: Ruleset, s: State, rt: Ruleset, t: State, op: Op)
    requires Interchangeable(rs, rt) && SameBut(s, t)
    ensures Interchangeable(Ruling(rs, s, op), Ruling(rt, t, op))
  {
    hide Acceptable, KeysFrom, Ruleset.Decide;
    assert Snapshot(t) == Snapshot(s);
  }

  lemma {:induction false} RunsAlike(rs: Ruleset, s: State, rt: Ruleset, t: State, ops: seq<Op>)
    requires Alike(rs, s, rt, t)
    ensures Alike(RulingAfter(rs, s, ops), Run(rs, s, ops), RulingAfter(rt, t, ops), Run(rt, t, ops))
    ensures Answers(rt, t, ops) == Answers(rs, s, ops)
    decreases |ops|
  {
    hide Alike, Apply, Ruling;
    if ops != [] {
      StepsAlike(rs, s, rt, t, ops[0]);
      RunsAlike(Ruling(rs, s, ops[0]), Apply(rs, s, ops[0]).0, Ruling(rt, t, ops[0]), Apply(rt, t, ops[0]).0, ops[1..]);
    }
  }

  /**
   Restarting a process changes nothing a caller can see, under any ruleset that derives the same
   keys, scores and bands as the one in force: whatever ran before the snapshot and whatever runs
   after it, every later call answers as it would have without the restart.
   */
  lemma ReloadIsInvisible(rs: Ruleset, index: VectorIndex, before: seq<Op>, supplied: Ruleset, after: seq<Op>)
    requires index.rows == map[]
    ensures var s, ruling := Run(rs, New(index), before), RulingAfter(rs, New(index), before);
      var t := Restored(supplied, Snapshot(s));
      && (Acceptable(Snapshot(s)) <==> s.index.dim != 0)
      && (Interchangeable(ruling, supplied) ==>
            && Answers(supplied, t, after) == Answers(ruling, s, after)
            && Alike(RulingAfter(ruling, s, after), Run(ruling, s, after),
                     RulingAfter(supplied, t, after), Run(supplied, t, after)))
  {
    hide Run, RulingAfter, Answers, Sound, Acceptable, RebuiltBlocks, Interchangeable;
    ReachableIsFaithful(rs, index, before);
    var s, ruling := Run(rs, New(index), before), RulingAfter(rs, New(index), before);
    SnapshotIsAccepted(ruling, s);
    RestoredIsSound(ruling, s, supplied);
    if Interchangeable(ruling, supplied) {
      RunsAlike(ruling, s, supplied, Restored(supplied, Snapshot(s)), after);
    }
  }

  lemma RestoredIsSound(rs: Ruleset, s: State, supplied: Ruleset)
    requires Sound(rs, s)
    ensures var t := Restored(supplied, Snapshot(s)); SameBut(s, t) && Sound(supplied, t)
  {
    hide BlocksDerived, MemoryStore.Sound, RebuiltBlocks;
    RebuiltIsDerived(supplied, s.identity);
    var t := Restored(supplied, Snapshot(s));
    forall id | id in t.assertions ensures AssertionResolves(t, t.assertions[id]) {
      assert AssertionResolves(s, s.assertions[id]);
    }
  }
}
