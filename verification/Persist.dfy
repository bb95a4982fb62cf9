/**
 Snapshot and restore. Both nested crates' snapshots are carried as the values their own `open`
 returns. The blocking map is no part of a snapshot: restoring derives it again.
 */
module Persist {
  import opened Core
  import opened Ordering
  import opened Store
  import opened Resolution
  import opened EngineState
  import opened EngineInvariant
  import opened EngineLaws

  datatype Persisted = Persisted(
    store: MemoryStore,
    index: VectorIndex,
    identity: map<StableId, Record>,
    assertions: map<AssertionId, AssertionRef>,
    review: map<ReviewId, PendingReview>,
    rejected: set<Settled>,
    nextAssertion: AssertionId,
    nextReview: ReviewId)

  function Snapshot(s: State): Persisted {
    Persisted(s.store, s.index, s.identity, s.assertions, s.review, s.rejected, s.nextAssertion, s.nextReview)
  }

  // ----- the checks

  /** `VectorIndex::open`: a dimension, and rows that are all of it and all numbers. */
  predicate IndexOpens(index: VectorIndex) {
    index.dim != 0 && index.RowsFit()
  }

  predicate AssertionHolds(p: Persisted, id: AssertionId, at: AssertionRef) {
    && at.entity in p.store.entities
    && at.entity in p.identity
    && at.version < |p.store.History(at.entity, at.attribute)|
    && id in p.index.rows
  }

  /**
   Everything `restore` checks. The index is compared with the assertions by one inclusion and
   by size, because it exposes no iterator over its ids.
   */
  predicate Acceptable(p: Persisted) {
    && p.store.Sound()
    && IndexOpens(p.index)
    && (forall id :: id in p.assertions ==> id < p.nextAssertion)
    && (forall q :: q in p.review ==> q < p.nextReview)
    && (forall id :: id in p.identity ==> id in p.store.entities)
    && (forall id :: id in p.assertions ==> AssertionHolds(p, id, p.assertions[id]))
    && |p.index.rows| == |p.assertions|
    && (forall q :: q in p.review ==> p.review[q].a in p.identity && p.review[q].b in p.identity)
  }

  /** One inclusion and equal counts are the whole bijection. */
  lemma IndexMatchesAssertions(p: Persisted)
    requires Acceptable(p)
    ensures p.index.rows.Keys == p.assertions.Keys
  {
    assert p.assertions.Keys <= p.index.rows.Keys by {
      forall id | id in p.assertions ensures id in p.index.rows {
        assert AssertionHolds(p, id, p.assertions[id]);
      }
    }
    assert |p.assertions.Keys| == |p.assertions| && |p.index.rows.Keys| == |p.index.rows|;
    SubsetOfSameSize(p.assertions.Keys, p.index.rows.Keys);
  }

  // ----- the derived map

  /** The blocking map keyed from nothing, an entity at a time. */
  function BlocksFrom(rs: Ruleset, identity: map<StableId, Record>, ids: seq<StableId>): Blocks
    requires forall id :: id in ids ==> id in identity
  {
    if ids == [] then map[]
    else
      var last := ids[|ids| - 1];
      assert ids == ids[..|ids| - 1] + [last];
      Keyed(BlocksFrom(rs, identity, ids[..|ids| - 1]), last, rs.KeysFor(identity[last]))
  }

  function RebuiltBlocks(rs: Ruleset, identity: map<StableId, Record>): Blocks {
    BlocksFrom(rs, identity, InOrder(identity.Keys))
  }

  function Among(identity: map<StableId, Record>, ids: seq<StableId>): map<StableId, Record> {
    map id | id in identity && id in ids :: identity[id]
  }

  lemma {:induction false} BlocksFromDerived(rs: Ruleset, identity: map<StableId, Record>, ids: seq<StableId>)
    requires forall id :: id in ids ==> id in identity
    requires Ascending(ids)
    ensures BlocksDerived(rs, Among(identity, ids), BlocksFrom(rs, identity, ids))
  {
    hide Keyed, Among;
    if ids == [] {
      NothingKeyed(rs, identity);
    } else {
      var front, last := ids[..|ids| - 1], ids[|ids| - 1];
      assert ids == front + [last];
      assert last !in front;
      BlocksFromDerived(rs, identity, front);
      hide BlocksDerived, Ascending;
      AmongOneMore(identity, front, last);
      KeyingKeepsDerived(rs, Among(identity, front), BlocksFrom(rs, identity, front), last, identity[last]);
    }
  }

  lemma NothingKeyed(rs: Ruleset, identity: map<StableId, Record>)
    ensures BlocksDerived(rs, Among(identity, []), map[])
  {
  }

  lemma AmongOneMore(identity: map<StableId, Record>, front: seq<StableId>, last: StableId)
    requires last in identity && last !in front
    ensures Among(identity, front + [last]) == Among(identity, front)[last := identity[last]]
    ensures last !in Among(identity, front)
  {
  }

  lemma RebuiltIsDerived(rs: Ruleset, identity: map<StableId, Record>)
    ensures BlocksDerived(rs, identity, RebuiltBlocks(rs, identity))
  {
    BlocksFromDerived(rs, identity, InOrder(identity.Keys));
    assert Among(identity, InOrder(identity.Keys)) == identity;
  }

  /** What restore builds from an acceptable snapshot, under the ruleset supplied fresh. */
  function Restored(rs: Ruleset, p: Persisted): State {
    State(p.store, p.index, p.identity, RebuiltBlocks(rs, p.identity), p.assertions, p.review, p.rejected,
          p.nextAssertion, p.nextReview)
  }

  // ----- what restore promises

  /** Every accepted snapshot, whoever wrote it and under whatever ruleset, is a sound engine. */
  lemma AcceptedIsSound(rs: Ruleset, p: Persisted)
    requires Acceptable(p)
    ensures Sound(rs, Restored(rs, p)) && Snapshot(Restored(rs, p)) == p
  {
    hide BlocksDerived, RebuiltBlocks;
    IndexMatchesAssertions(p);
    RebuiltIsDerived(rs, p.identity);
    var s := Restored(rs, p);
    forall id | id in s.assertions ensures AssertionResolves(s, s.assertions[id]) {
      assert AssertionHolds(p, id, p.assertions[id]);
    }
  }

  /**
   A sound engine's snapshot is accepted exactly when its index has a dimension: the engine can
   be built over an index of dimension zero, and `VectorIndex::open` will not have it back.
   */
  lemma SnapshotIsAccepted(rs: Ruleset, s: State)
    requires Sound(rs, s)
    ensures Acceptable(Snapshot(s)) <==> s.index.dim != 0
  {
    hide BlocksDerived;
    var p := Snapshot(s);
    assert |s.index.rows.Keys| == |s.index.rows| && |s.assertions.Keys| == |s.assertions|;
    forall id | id in p.assertions ensures AssertionHolds(p, id, p.assertions[id]) {
      assert AssertionResolves(s, s.assertions[id]);
      assert id in s.index.rows.Keys;
    }
  }

  /** A dimensionless engine that has written nothing: sound, and refused. */
  lemma DimensionlessIsRefused(rs: Ruleset)
    ensures var s := New(VectorIndex(0, Cosine, map[])); Sound(rs, s) && !Acceptable(Snapshot(s))
  {
    NewIsSound(rs, VectorIndex(0, Cosine, map[]));
  }

  /** The two states hold the same blocks as sets, and everything else identically. */
  ghost predicate SameButBlockOrder(s: State, t: State) {
    && t == s.(blocks := t.blocks)
    && t.blocks.Keys == s.blocks.Keys
    && (forall k :: k in s.blocks ==>
          |t.blocks[k]| == |s.blocks[k]| && MemberIds(t.blocks[k]) == MemberIds(s.blocks[k]))
  }

  function MemberIds(ids: seq<StableId>): set<StableId> {
    set id | id in ids
  }

  lemma {:induction false} DistinctSize(ids: seq<StableId>)
    requires NoDuplicates(ids)
    ensures |MemberIds(ids)| == |ids|
  {
    if ids != [] {
      DistinctSize(ids[1..]);
      assert ids == [ids[0]] + ids[1..];
      assert MemberIds(ids) == {ids[0]} + MemberIds(ids[1..]);
      assert ids[0] !in MemberIds(ids[1..]);
    }
  }

  /** Two maps derived from one set of records differ at most in the order within a block. */
  lemma DerivedBlocksAgree(rs: Ruleset, identity: map<StableId, Record>, a: Blocks, b: Blocks)
    requires BlocksDerived(rs, identity, a) && BlocksDerived(rs, identity, b)
    ensures a.Keys == b.Keys
    ensures forall k :: k in a ==> |a[k]| == |b[k]| && MemberIds(a[k]) == MemberIds(b[k])
  {
    forall k ensures MemberIds(BlockOf(a, k)) == MemberIds(BlockOf(b, k)) {
      forall id ensures id in BlockOf(a, k) <==> id in BlockOf(b, k) {
        assert id in BlockOf(a, k) <==> Derives(rs, identity, k, id);
        assert id in BlockOf(b, k) <==> Derives(rs, identity, k, id);
      }
    }
    forall k | k in a ensures k in b {
      assert a[k][0] in MemberIds(BlockOf(a, k));
    }
    forall k | k in b ensures k in a {
      assert b[k][0] in MemberIds(BlockOf(b, k));
    }
    forall k | k in a ensures |a[k]| == |b[k]| && MemberIds(a[k]) == MemberIds(b[k]) {
      DistinctSize(a[k]);
      DistinctSize(b[k]);
      assert MemberIds(BlockOf(a, k)) == MemberIds(BlockOf(b, k));
    }
  }

  /** A snapshot round trip returns the same engine, its blocks equal as duplicate-free sets. */
  lemma RoundTrip(rs: Ruleset, s: State)
    requires Sound(rs, s)
    ensures SameButBlockOrder(s, Restored(rs, Snapshot(s)))
    ensures forall mention :: CandidateSet(rs, Restored(rs, Snapshot(s)), mention) == CandidateSet(rs, s, mention)
  {
    RebuiltIsDerived(rs, s.identity);
    var t := Restored(rs, Snapshot(s));
    DerivedBlocksAgree(rs, s.identity, s.blocks, t.blocks);
    forall mention ensures CandidateSet(rs, t, mention) == CandidateSet(rs, s, mention) {
      CandidatesAreDerived(rs, s, mention);
      CandidatesAreDerived(rs, t, mention);
    }
  }

  /**
   After any accepted restore the next accepted observation lands: it never fails, takes an unused
   assertion id and either a known entity or an unused entity id, and disturbs nothing there was.
   */
  lemma NextRememberIsFresh(rs: Ruleset, p: Persisted, obs: Observation)
    requires Acceptable(p) && p.index.Check(obs.embedding).None?
    ensures var s := Restored(rs, p);
      var r := Remember(rs, s, obs);
      && r.result.Ok?
      && p.nextAssertion !in p.assertions && p.nextAssertion !in p.index.rows
      && r.result.value.assertion == p.nextAssertion
      && OnOwnEntity(s, r.result.value)
      && r.state.index.rows == p.index.rows[p.nextAssertion := obs.embedding]
      && r.state.assertions.Keys == p.assertions.Keys + {p.nextAssertion}
      && (forall id :: id in p.assertions ==> Resolve(s, id).Some? && Resolve(r.state, id) == Resolve(s, id))
      && (forall q :: q in p.review ==> q in r.state.review && r.state.review[q] == p.review[q])
      && (forall id :: id in p.identity ==> id in r.state.identity)
  {
    hide BlocksDerived, MemoryStore.Sound, RebuiltBlocks, VectorIndex.Check;
    AcceptedIsSound(rs, p);
    IndexMatchesAssertions(p);
    var s := Restored(rs, p);
    RememberLands(rs, s, obs);
    forall id | id in p.assertions ensures Resolve(s, id).Some? {
      assert AssertionResolves(s, s.assertions[id]);
    }
  }

  lemma RememberLands(rs: Ruleset, s: State, obs: Observation)
    requires Sound(rs, s) && s.index.Check(obs.embedding).None?
    ensures var r := Remember(rs, s, obs);
      && r.result.Ok? && r.result.value.assertion == s.nextAssertion && OnOwnEntity(s, r.result.value)
      && r.state.index.rows == s.index.rows[s.nextAssertion := obs.embedding]
      && r.state.assertions.Keys == s.assertions.Keys + {s.nextAssertion}
      && (forall id :: id in s.assertions ==> Resolve(r.state, id) == Resolve(s, id))
      && (forall q :: q in s.review ==> q in r.state.review && r.state.review[q] == s.review[q])
      && s.identity.Keys <= r.state.identity.Keys
  {
    hide Sound, Write, CreateEntity, FoldIdentity, VectorIndex.Check, Askable, Resolve;
    RememberKeeps(rs, s, obs);
    match BestMatch(rs, s, obs.mention)
    case Some(entity) =>
      MatchIsKnown(rs, s, obs.mention, entity);
      LandsOn(rs, s, entity, obs);
      FoldKeeps(rs, Write(s, entity, obs).state, entity, obs.mention);
      SameLogs(Write(s, entity, obs).state, Remember(rs, s, obs).state);
    case None =>
      FreshLands(rs, s, obs);
  }

  /** Where an observation is put: on a known entity, or on one no one has been. */
  predicate OnOwnEntity(s: State, r: Remembered) {
    if r.Merged? then r.entity in s.identity else r.entity == s.store.nextId && s.store.nextId !in s.store.entities
  }

  lemma SameLogs(s: State, t: State)
    requires t.store == s.store && t.assertions == s.assertions
    ensures forall id :: Resolve(t, id) == Resolve(s, id)
  {
  }

  lemma LandsOn(rs: Ruleset, s: State, entity: StableId, obs: Observation)
    requires Sound(rs, s) && entity in s.identity && s.index.Check(obs.embedding).None?
    ensures var w := Write(s, entity, obs);
      && Sound(rs, w.state) && w.result == Ok(s.nextAssertion)
      && w.state == s.(store := w.state.store, index := w.state.index,
                       assertions := w.state.assertions, nextAssertion := s.nextAssertion + 1)
      && w.state.index.rows == s.index.rows[s.nextAssertion := obs.embedding]
      && w.state.assertions.Keys == s.assertions.Keys + {s.nextAssertion}
      && (forall id :: id in s.assertions ==> Resolve(w.state, id) == Resolve(s, id))
  {
    WriteKeeps(rs, s, entity, obs);
    WriteAddsOne(rs, s, entity, obs);
    hide Sound, Write, VectorIndex.Check, Resolve;
  }

  lemma FreshLands(rs: Ruleset, s: State, obs: Observation)
    requires Sound(rs, s) && s.index.Check(obs.embedding).None? && BestMatch(rs, s, obs.mention).None?
    ensures var r := Remember(rs, s, obs);
      && r.result.Ok? && r.result.value.assertion == s.nextAssertion && OnOwnEntity(s, r.result.value)
      && r.state.index.rows == s.index.rows[s.nextAssertion := obs.embedding]
      && r.state.assertions.Keys == s.assertions.Keys + {s.nextAssertion}
      && (forall id :: id in s.assertions ==> Resolve(r.state, id) == Resolve(s, id))
      && (forall q :: q in s.review ==> q in r.state.review && r.state.review[q] == s.review[q])
      && s.identity.Keys <= r.state.identity.Keys
  {
    hide Write, CreateEntity, VectorIndex.Check, Askable, BestMatch, Resolve, BlocksDerived, MemoryStore.Sound,
      Remember, Questions, AssertionsResolve;
    FreshShape(rs, s, obs);
    CreateKeeps(rs, s, obs);
    AskableShape(rs, s, obs);
    var (created, entity) := CreateEntity(rs, s, obs);
    LandsOn(rs, created, entity, obs);
    CreatedReads(s, created);
    var w := Write(created, entity, obs).state;
    var others := Askable(rs, s, created, entity, obs.mention);
    QuestionsShape(rs, s, entity, obs.mention, others);
    SameLogs(w, Remember(rs, s, obs).state);
  }

  lemma CreatedReads(s: State, created: State)
    requires created.assertions == s.assertions
    requires forall e, a :: created.store.History(e, a) == s.store.History(e, a)
    ensures forall id :: Resolve(created, id) == Resolve(s, id)
  {
    hide MemoryStore.History;
  }
}
