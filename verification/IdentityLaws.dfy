/**
 Who a mention turns out to be, and what is known of them afterwards, in terms of the records, the
 ruleset's keys, scores and thresholds, and nothing else.
 */
module IdentityLaws {
  import opened Core
  import opened Store
  import opened Resolution
  import opened EngineState
  import opened EngineInvariant
  import opened EngineLaws

  // ----- who a mention is

  /** Someone the mention is compared with: they share a key, or nothing blocks at all. */
  ghost predicate Considered(rs: Ruleset, identity: map<StableId, Record>, mention: Record, id: StableId) {
    id in identity &&
    (rs.blocking == [] || exists b, c, k ::
       b in rs.blocking && c in rs.blocking && b.field in mention && c.field in identity[id]
       && k in b.derive(mention[b.field]) && k in c.derive(identity[id][c.field]))
  }

  ghost predicate Matching(rs: Ruleset, identity: map<StableId, Record>, mention: Record, id: StableId) {
    Considered(rs, identity, mention, id) && rs.score(mention, identity[id]) >= rs.matchAt
  }

  /** Not near enough to be the same, near enough to ask. */
  ghost predicate Doubtful(rs: Ruleset, identity: map<StableId, Record>, mention: Record, id: StableId) {
    && Considered(rs, identity, mention, id)
    && rs.reviewAt <= rs.score(mention, identity[id]) < rs.matchAt
  }

  lemma CandidatesAreConsidered(rs: Ruleset, s: State, mention: Record)
    requires BlocksDerived(rs, s.identity, s.blocks)
    ensures forall id :: id in CandidateSet(rs, s, mention) <==> Considered(rs, s.identity, mention, id)
  {
    hide CandidateSet, BlocksDerived, KeysFrom;
    CandidatesAreDerived(rs, s, mention);
    forall id ensures id in CandidateSet(rs, s, mention) <==> Considered(rs, s.identity, mention, id) {
      if id in s.identity {
        SharedKeys(rs, mention, s.identity[id]);
      }
    }
  }

  lemma SharedKeys(rs: Ruleset, x: Record, y: Record)
    ensures (exists k :: k in rs.KeysFor(x) && k in rs.KeysFor(y)) <==>
      exists b, c, k ::
        b in rs.blocking && c in rs.blocking && b.field in x && c.field in y
        && k in b.derive(x[b.field]) && k in c.derive(y[c.field])
  {
    hide KeysFrom;
    if k :| k in rs.KeysFor(x) && k in rs.KeysFor(y) {
      var b :| b in rs.blocking && k in b.KeysFor(x);
      var c :| c in rs.blocking && k in c.KeysFor(y);
    }
    if b, c, k :| b in rs.blocking && c in rs.blocking && b.field in x && c.field in y
                  && k in b.derive(x[b.field]) && k in c.derive(y[c.field])
    {
      assert k in b.KeysFor(x) && k in c.KeysFor(y);
      assert k in rs.KeysFor(x) && k in rs.KeysFor(y);
    }
  }

  lemma BandsAreThresholds(rs: Ruleset, s: State, mention: Record, id: StableId)
    requires BlocksDerived(rs, s.identity, s.blocks)
    ensures Banded(rs, s, mention, id, Match) <==> Matching(rs, s.identity, mention, id)
    ensures Banded(rs, s, mention, id, Review) <==> Doubtful(rs, s.identity, mention, id)
  {
    hide CandidateSet, BlocksDerived, Considered;
    CandidatesAreConsidered(rs, s, mention);
    assert Considered(rs, s.identity, mention, id) ==> id in s.identity by { ConsideredIsKnown(rs, s, mention, id); }
  }

  lemma ConsideredIsKnown(rs: Ruleset, s: State, mention: Record, id: StableId)
    ensures Considered(rs, s.identity, mention, id) ==> id in s.identity
  {
  }

  /** The match chosen among several: the highest score, and of equals the lowest id. */
  ghost predicate Best(rs: Ruleset, identity: map<StableId, Record>, mention: Record, id: StableId) {
    && Matching(rs, identity, mention, id)
    && forall other :: Matching(rs, identity, mention, other) && other != id ==>
         || rs.score(mention, identity[other]) < rs.score(mention, identity[id])
         || (rs.score(mention, identity[other]) == rs.score(mention, identity[id]) && id < other)
  }

  /** Wherever there is a match there is a best one. */
  lemma {:induction false} SomeIsBest(rs: Ruleset, identity: map<StableId, Record>, mention: Record,
                                      ids: set<StableId>) returns (best: StableId)
    requires ids != {} && ids <= identity.Keys
    ensures best in ids
    ensures forall other :: other in ids && other != best ==>
      || rs.score(mention, identity[other]) < rs.score(mention, identity[best])
      || (rs.score(mention, identity[other]) == rs.score(mention, identity[best]) && best < other)
    decreases |ids|
  {
    best :| best in ids;
    if ids != {best} {
      var rest := SomeIsBest(rs, identity, mention, ids - {best});
      if rs.score(mention, identity[best]) < rs.score(mention, identity[rest])
         || (rs.score(mention, identity[best]) == rs.score(mention, identity[rest]) && rest < best)
      {
        best := rest;
      }
    }
  }

  lemma MatchedHaveBest(rs: Ruleset, identity: map<StableId, Record>, mention: Record)
    ensures (exists id :: Matching(rs, identity, mention, id)) <==> exists id :: Best(rs, identity, mention, id)
  {
    hide Considered;
    var ids := set id | id in identity && Matching(rs, identity, mention, id);
    if id :| Matching(rs, identity, mention, id) {
      assert id in identity by { MatchingIsKnown(rs, identity, mention, id); }
      assert id in ids;
      var best := SomeIsBest(rs, identity, mention, ids);
      forall other | Matching(rs, identity, mention, other) ensures other in ids {
        MatchingIsKnown(rs, identity, mention, other);
      }
      assert Best(rs, identity, mention, best);
    }
  }

  lemma MatchingIsKnown(rs: Ruleset, identity: map<StableId, Record>, mention: Record, id: StableId)
    requires Matching(rs, identity, mention, id)
    ensures id in identity
  {
  }

  lemma WinnersAreBest(rs: Ruleset, s: State, mention: Record)
    requires BlocksDerived(rs, s.identity, s.blocks)
    ensures forall id: StableId :: Best(rs, s.identity, mention, id) ==> BestMatch(rs, s, mention) == Some(id)
    ensures (forall id :: !Best(rs, s.identity, mention, id)) ==> BestMatch(rs, s, mention).None?
  {
    hide BlocksDerived, CandidateSet, Considered, BestMatch, Banded, Matching;
    forall id ensures Best(rs, s.identity, mention, id) <==> Wins(rs, s, mention, id) {
      BandsAreThresholds(rs, s, mention, id);
      forall other ensures Banded(rs, s, mention, other, Match) <==> Matching(rs, s.identity, mention, other) {
        BandsAreThresholds(rs, s, mention, other);
      }
    }
    hide Wins, Best;
    forall id: StableId | Best(rs, s.identity, mention, id) ensures BestMatch(rs, s, mention) == Some(id) {
      BestMatchIs(rs, s, mention, id);
    }
    NoWinnerNoMatch(rs, s, mention);
  }

  lemma NoWinnerNoMatch(rs: Ruleset, s: State, mention: Record)
    ensures (forall id :: !Wins(rs, s, mention, id)) ==> BestMatch(rs, s, mention).None?
  {
    hide Wins;
  }

  // ----- what is known of them afterwards

  /** One record took a mention in: what it held stands, what was new is the mention's, no other moved. */
  ghost predicate Learned(before: map<StableId, Record>, after: map<StableId, Record>, id: StableId, mention: Record) {
    && after.Keys == before.Keys + {id}
    && (forall other :: other in before && other != id ==> after[other] == before[other])
    && (forall f :: f in after[id] <==> f in mention || (id in before && f in before[id]))
    && (forall f :: f in after[id] ==>
          after[id][f] == if id in before && f in before[id] then before[id][f] else mention[f])
  }

  lemma FoldLearns(rs: Ruleset, s: State, id: StableId, mention: Record)
    requires id in s.identity
    ensures Learned(s.identity, FoldIdentity(rs, s, id, mention).identity, id, mention)
  {
  }

  /**
   A remembered mention is the best match there is, and a new entity exactly when nobody matches;
   either way that entity's record has taken the mention in.
   */
  lemma RememberLearns(rs: Ruleset, s: State, obs: Observation)
    requires Sound(rs, s) && s.index.Check(obs.embedding).None?
    ensures var r := Remember(rs, s, obs);
      && r.result.Ok?
      && Learned(s.identity, r.state.identity, r.result.value.entity, obs.mention)
      && (r.result.value.Merged? <==> exists id :: Matching(rs, s.identity, obs.mention, id))
      && (if r.result.value.Merged? then Best(rs, s.identity, obs.mention, r.result.value.entity)
          else r.result.value.entity == s.store.nextId && s.store.nextId !in s.identity)
  {
    hide Best, Matching, Learned, Wins, Write, FoldIdentity, CreateEntity, BestMatch, VectorIndex.Check, Askable,
         Questions, Remember, BlocksDerived, MemoryStore.Sound, MemoryStore.History;
    WinnersAreBest(rs, s, obs.mention);
    MatchedHaveBest(rs, s.identity, obs.mention);
    if exists id :: Best(rs, s.identity, obs.mention, id) {
      var id :| Best(rs, s.identity, obs.mention, id);
      BestIsKnown(rs, s.identity, obs.mention, id);
      MatchShape(rs, s, obs, id);
      WriteKeeps(rs, s, id, obs);
      FoldLearns(rs, Write(s, id, obs).state, id, obs.mention);
    } else {
      FreshShape(rs, s, obs);
      CreateKeeps(rs, s, obs);
      var (created, id) := CreateEntity(rs, s, obs);
      WriteKeeps(rs, created, id, obs);
      NewLearns(s.identity, id, obs.mention);
    }
  }

  lemma BestIsKnown(rs: Ruleset, identity: map<StableId, Record>, mention: Record, id: StableId)
    requires Best(rs, identity, mention, id)
    ensures id in identity
  {
    hide Considered;
    MatchingIsKnown(rs, identity, mention, id);
  }

  lemma NewLearns(before: map<StableId, Record>, id: StableId, mention: Record)
    requires id !in before
    ensures Learned(before, before[id := mention], id, mention)
  {
  }

  /** What remembering a matched mention amounts to. */
  lemma MatchShape(rs: Ruleset, s: State, obs: Observation, id: StableId)
    requires Sound(rs, s) && s.index.Check(obs.embedding).None? && BestMatch(rs, s, obs.mention) == Some(id)
    requires id in s.identity
    ensures var w, r := Write(s, id, obs), Remember(rs, s, obs);
      && w.result.Ok? && r.state == FoldIdentity(rs, w.state, id, obs.mention)
      && r.result == Ok(Merged(id, w.result.value))
  {
    hide Sound, Write, FoldIdentity, BestMatch, VectorIndex.Check;
    WriteKeeps(rs, s, id, obs);
  }

  /** What the store keeps of an observation: all it said, a tombstone always correcting. */
  function Kept(obs: Observation): Version {
    Version(obs.value, obs.valid, obs.provenance, if obs.value.None? then Corrects else obs.supersession,
            obs.accordingTo)
  }

  /** One log grew by what was observed and no other log or edge moved, nor any vector but the new one. */
  ghost predicate Wrote(s: State, s': State, entity: StableId, assertion: AssertionId, obs: Observation) {
    && (forall e, a :: s'.store.History(e, a) ==
          s.store.History(e, a) + (if e == entity && a == obs.attribute then [Kept(obs)] else []))
    && s'.store.edges == s.store.edges
    && s'.index.dim == s.index.dim && s'.index.metric == s.index.metric
    && assertion == s.nextAssertion && s'.nextAssertion == s.nextAssertion + 1
    && s'.index.rows == s.index.rows[assertion := obs.embedding]
    && s'.assertions == s.assertions[
         assertion := AssertionRef(entity, obs.attribute, |s.store.History(entity, obs.attribute)|)]
  }

  lemma RememberWrites(rs: Ruleset, s: State, obs: Observation)
    requires Sound(rs, s) && s.index.Check(obs.embedding).None?
    ensures var r := Remember(rs, s, obs);
      r.result.Ok? && Wrote(s, r.state, r.result.value.entity, r.result.value.assertion, obs)
  {
    hide BestMatch, FoldIdentity, VectorIndex.Check, Askable, Questions, Remember, Sound, Write, CreateEntity, Wrote;
    if BestMatch(rs, s, obs.mention).Some? {
      var id := BestMatch(rs, s, obs.mention).value;
      MatchIsKnown(rs, s, obs.mention, id);
      MatchShape(rs, s, obs, id);
      WriteWrote(rs, s, id, obs);
      WriteKeeps(rs, s, id, obs);
      FoldKeeps(rs, Write(s, id, obs).state, id, obs.mention);
      WroteStays(s, Write(s, id, obs).state, Remember(rs, s, obs).state, id, Write(s, id, obs).result.value, obs);
    } else {
      FreshShape(rs, s, obs);
      CreateKeeps(rs, s, obs);
      var (created, id) := CreateEntity(rs, s, obs);
      WriteWrote(rs, created, id, obs);
      WroteSince(s, created, Write(created, id, obs).state, id, Write(created, id, obs).result.value, obs);
      WroteStays(s, Write(created, id, obs).state, Remember(rs, s, obs).state, id,
                 Write(created, id, obs).result.value, obs);
    }
  }

  lemma RememberAsWrites(rs: Ruleset, s: State, entity: Option<StableId>, obs: Observation)
    requires Sound(rs, s) && s.index.Check(obs.embedding).None? && (entity.Some? ==> entity.value in s.identity)
    ensures var r := RememberAs(rs, s, entity, obs);
      r.result.Ok? && Wrote(s, r.state, r.result.value.entity, r.result.value.assertion, obs)
  {
    hide FoldIdentity, VectorIndex.Check, Sound, Write, CreateEntity, Wrote;
    if entity.Some? {
      FoldKeeps(rs, s, entity.value, obs.mention);
      var placed := FoldIdentity(rs, s, entity.value, obs.mention);
      WriteWrote(rs, placed, entity.value, obs);
      WroteSince(s, placed, Write(placed, entity.value, obs).state, entity.value,
                 Write(placed, entity.value, obs).result.value, obs);
    } else {
      CreateKeeps(rs, s, obs);
      var (created, id) := CreateEntity(rs, s, obs);
      WriteWrote(rs, created, id, obs);
      WroteSince(s, created, Write(created, id, obs).state, id, Write(created, id, obs).result.value, obs);
    }
  }

  lemma WriteWrote(rs: Ruleset, s: State, entity: StableId, obs: Observation)
    requires Sound(rs, s) && entity in s.identity && s.index.Check(obs.embedding).None?
    ensures Write(s, entity, obs).result.Ok?
    ensures Wrote(s, Write(s, entity, obs).state, entity, Write(s, entity, obs).result.value, obs)
  {
    SoundBasics(rs, s);
    AssertAppends(s.store, entity, obs.attribute, obs.AsVersion());
    WriteShape(s, entity, obs);
    hide Write, Sound, MemoryStore.Assert, MemoryStore.History, VectorIndex.Check, TombstonesCorrect, MemoryStore.Sound,
         AssertionsResolve;
    assert Written(obs.AsVersion()) == Kept(obs);
  }

  lemma WroteStays(s: State, a: State, b: State, entity: StableId, assertion: AssertionId, obs: Observation)
    requires Wrote(s, a, entity, assertion, obs)
    requires b.store == a.store && b.index == a.index
    requires b.assertions == a.assertions && b.nextAssertion == a.nextAssertion
    ensures Wrote(s, b, entity, assertion, obs)
  {
    hide MemoryStore.History;
  }

  lemma WroteSince(s: State, a: State, b: State, entity: StableId, assertion: AssertionId, obs: Observation)
    requires Wrote(a, b, entity, assertion, obs)
    requires forall e, attribute :: a.store.History(e, attribute) == s.store.History(e, attribute)
    requires a.store.edges == s.store.edges && a.index == s.index
    requires a.assertions == s.assertions && a.nextAssertion == s.nextAssertion
    ensures Wrote(s, b, entity, assertion, obs)
  {
    hide MemoryStore.History;
  }

  /** The same entities, none of another kind or date. */
  predicate SameKinds(store: MemoryStore, store': MemoryStore) {
    && store'.entities.Keys == store.entities.Keys
    && forall e :: e in store.entities ==>
         store'.entities[e].kind == store.entities[e].kind
         && store'.entities[e].createdAt == store.entities[e].createdAt
  }

  /** An entity is in the store, of this kind and date if it is new, and every other is as it was. */
  predicate EntersStore(store: MemoryStore, store': MemoryStore, id: StableId, kind: string, at: Timestamp) {
    && store'.entities.Keys == store.entities.Keys + {id}
    && (forall e :: e in store.entities ==>
          store'.entities[e].kind == store.entities[e].kind
          && store'.entities[e].createdAt == store.entities[e].createdAt)
    && (id !in store.entities ==> store'.entities[id].kind == kind && store'.entities[id].createdAt == at)
  }

  /** A new entity is of the kind observed, created when it was observed; no entity's kind ever moves. */
  lemma NewIsRecorded(rs: Ruleset, s: State, obs: Observation)
    requires Sound(rs, s) && s.index.Check(obs.embedding).None?
    ensures var r := Remember(rs, s, obs);
      r.result.Ok? && EntersStore(s.store, r.state.store, r.result.value.entity, obs.kind, obs.provenance.observedAt)
  {
    hide BestMatch, FoldIdentity, VectorIndex.Check, Askable, Questions, Remember, Sound, Write, CreateEntity;
    if BestMatch(rs, s, obs.mention).Some? {
      var id := BestMatch(rs, s, obs.mention).value;
      MatchIsKnown(rs, s, obs.mention, id);
      MatchShape(rs, s, obs, id);
      KnownIsStored(rs, s);
      WriteKeepsKinds(s, id, obs);
      FoldKeepsStore(rs, Write(s, id, obs).state, id, obs.mention);
    } else {
      FreshShape(rs, s, obs);
      CreateKeeps(rs, s, obs);
      CreateIsRecorded(rs, s, obs);
      var (created, id) := CreateEntity(rs, s, obs);
      WriteKeepsKinds(created, id, obs);
    }
  }

  lemma KnownIsStored(rs: Ruleset, s: State)
    requires Sound(rs, s)
    ensures s.identity.Keys <= s.store.entities.Keys
  {
  }

  lemma FoldKeepsStore(rs: Ruleset, s: State, id: StableId, mention: Record)
    ensures FoldIdentity(rs, s, id, mention).store == s.store
  {
  }

  lemma WriteKeepsKinds(s: State, id: StableId, obs: Observation)
    ensures SameKinds(s.store, Write(s, id, obs).state.store)
  {
  }

  lemma CreateIsRecorded(rs: Ruleset, s: State, obs: Observation)
    ensures var (created, id) := CreateEntity(rs, s, obs);
      && created.store.entities.Keys == s.store.entities.Keys + {id} && id == s.store.nextId
      && created.store.entities[id].kind == obs.kind
      && created.store.entities[id].createdAt == obs.provenance.observedAt
      && forall e :: e in s.store.entities && e != id ==> created.store.entities[e] == s.store.entities[e]
  {
  }

  /** Pinned, the mention is who it is said to be, and is learned of them all the same. */
  lemma RememberAsLearns(rs: Ruleset, s: State, entity: Option<StableId>, obs: Observation)
    requires Sound(rs, s) && s.index.Check(obs.embedding).None? && (entity.Some? ==> entity.value in s.identity)
    ensures var r := RememberAs(rs, s, entity, obs);
      && r.result.Ok?
      && Learned(s.identity, r.state.identity, r.result.value.entity, obs.mention)
      && (if entity.Some? then r.result.value.entity == entity.value
          else r.result.value.entity == s.store.nextId && s.store.nextId !in s.identity)
  {
    hide Learned, Write, FoldIdentity, CreateEntity, VectorIndex.Check, BlocksDerived, MemoryStore.Sound;
    if entity.Some? {
      FoldKeeps(rs, s, entity.value, obs.mention);
      FoldLearns(rs, s, entity.value, obs.mention);
      WriteKeeps(rs, FoldIdentity(rs, s, entity.value, obs.mention), entity.value, obs);
    } else {
      CreateKeeps(rs, s, obs);
      var (created, id) := CreateEntity(rs, s, obs);
      WriteKeeps(rs, created, id, obs);
      NewLearns(s.identity, id, obs.mention);
    }
  }

  /**
   The point of learning: once a field has been learned of someone, any later mention with a key in
   common with it is compared with them.
   */
  lemma LearnedIsFound(rs: Ruleset, s: State, obs: Observation, later: Record, b: BlockingKey, k: string)
    requires Sound(rs, s) && s.index.Check(obs.embedding).None?
    requires b in rs.blocking && b.field in obs.mention && k in b.derive(obs.mention[b.field])
    requires k in rs.KeysFor(later)
    ensures var r := Remember(rs, s, obs);
      var id := r.result.value.entity;
      && r.result.Ok?
      && ((id in s.identity && b.field in s.identity[id] ==> s.identity[id][b.field] == obs.mention[b.field]) ==>
            id in CandidateSet(rs, r.state, later))
  {
    hide Sound, Best, Matching, Remember, VectorIndex.Check, CandidateSet, KeysFrom;
    RememberLearns(rs, s, obs);
    RememberKeeps(rs, s, obs);
    var r := Remember(rs, s, obs);
    var id := r.result.value.entity;
    SoundDerives(rs, r.state);
    CandidatesAreDerived(rs, r.state, later);
    if id in s.identity && b.field in s.identity[id] ==> s.identity[id][b.field] == obs.mention[b.field] {
      assert k in b.KeysFor(r.state.identity[id]);
      assert k in rs.KeysFor(r.state.identity[id]);
    }
  }

  lemma SoundDerives(rs: Ruleset, s: State)
    requires Sound(rs, s)
    ensures BlocksDerived(rs, s.identity, s.blocks)
  {
  }
}
