/**
 Every operation keeps the invariant, for every argument and whatever it answers.
 */
module EngineLaws {
  import opened Core
  import opened Ordering
  import opened Store
  import opened Resolution
  import opened EngineState
  import opened EngineInvariant

  // ----- the store underneath

  lemma AssertAppends(store: MemoryStore, id: StableId, attribute: string, v: Version)
    requires id in store.entities && store.Sound()
    ensures store.Assert(id, attribute, v).Ok?
    ensures var store' := store.Assert(id, attribute, v).value;
      && store'.Sound() && store'.entities.Keys == store.entities.Keys
      && (TombstonesCorrect(store) ==> TombstonesCorrect(store'))
      && (forall e, a :: store'.History(e, a) ==
            store.History(e, a) + (if e == id && a == attribute then [Written(v)] else []))
  {
    var store' := store.Assert(id, attribute, v).value;
    if TombstonesCorrect(store) {
      forall e, a | e in store'.entities && a in store'.entities[e].attributes
        ensures LogCorrects(store'.entities[e].attributes[a])
      {
        if e == id && a == attribute {
          if a in store.entities[e].attributes { assert LogCorrects(store.entities[e].attributes[a]); }
        } else {
          assert LogCorrects(store.entities[e].attributes[a]);
        }
      }
    }
  }

  // ----- writing

  lemma WriteKeeps(rs: Ruleset, s: State, entity: StableId, obs: Observation)
    requires Sound(rs, s) && entity in s.identity
    ensures var w := Write(s, entity, obs);
      && Sound(rs, w.state)
      && (Faithful(s) ==> Faithful(w.state))
      && (w.result.Ok? <==> s.index.Check(obs.embedding).None?)
      && w.state == s.(store := w.state.store, index := w.state.index,
                       assertions := w.state.assertions, nextAssertion := s.nextAssertion + 1)
      && w.state.store.edges == s.store.edges
      && w.state.index.dim == s.index.dim && w.state.index.metric == s.index.metric
  {
    hide Write, BlocksDerived, MemoryStore.Assert, TombstonesCorrect, AssertionsResolve, OneAssertionPerVersion;
    WriteShape(s, entity, obs);
    AssertAppends(s.store, entity, obs.attribute, obs.AsVersion());
    var w := Write(s, entity, obs).state;
    GrownLogResolves(s, w, entity, obs.attribute, Written(obs.AsVersion()));
    if OneAssertionPerVersion(s.assertions) {
      WriteIsInjective(s, w, entity, obs.attribute);
    }
  }

  lemma GrownLogResolves(s: State, w: State, entity: StableId, attribute: string, v: Version)
    requires AssertionsResolve(s) && entity in s.identity && w.identity == s.identity
    requires forall e, a ::
      w.store.History(e, a) == s.store.History(e, a) + (if e == entity && a == attribute then [v] else [])
    requires w.assertions == s.assertions || w.assertions == s.assertions[
      s.nextAssertion := AssertionRef(entity, attribute, |s.store.History(entity, attribute)|)]
    ensures AssertionsResolve(w)
  {
    hide MemoryStore.History;
    forall id | id in w.assertions ensures AssertionResolves(w, w.assertions[id]) {
      if id in s.assertions { assert AssertionResolves(s, s.assertions[id]); }
    }
  }

  lemma SameLogsResolve(s: State, w: State)
    requires AssertionsResolve(s) && s.identity.Keys <= w.identity.Keys && w.assertions == s.assertions
    requires forall e, a :: w.store.History(e, a) == s.store.History(e, a)
    ensures AssertionsResolve(w)
  {
    hide MemoryStore.History;
    forall id | id in w.assertions ensures AssertionResolves(w, w.assertions[id]) {
      assert AssertionResolves(s, s.assertions[id]);
    }
  }

  /** What a write touches: the one log, the counter, and on acceptance the two maps. */
  lemma WriteShape(s: State, entity: StableId, obs: Observation)
    requires entity in s.store.entities
    ensures var w, id := Write(s, entity, obs), s.nextAssertion;
      && s.store.Assert(entity, obs.attribute, obs.AsVersion()) == Ok(w.state.store)
      && (w.result.Ok? <==> s.index.Check(obs.embedding).None?)
      && w.state == s.(store := w.state.store, index := w.state.index,
                       assertions := w.state.assertions, nextAssertion := id + 1)
      && w.state.store.edges == s.store.edges
      && w.state.index.dim == s.index.dim && w.state.index.metric == s.index.metric
      && if w.result.Ok? then
           && w.result == Ok(id)
           && w.state.index.rows == s.index.rows[id := obs.embedding]
           && w.state.assertions == s.assertions[
                id := AssertionRef(entity, obs.attribute, |s.store.History(entity, obs.attribute)|)]
         else w.state.index == s.index && w.state.assertions == s.assertions
  {
  }

  /** A new assertion takes a version past every one already named. */
  lemma WriteIsInjective(s: State, w: State, entity: StableId, attribute: string)
    requires AssertionsResolve(s) && OneAssertionPerVersion(s.assertions) && CountersAhead(s)
    requires w.assertions == s.assertions || w.assertions == s.assertions[
      s.nextAssertion := AssertionRef(entity, attribute, |s.store.History(entity, attribute)|)]
    ensures OneAssertionPerVersion(w.assertions)
  {
    hide MemoryStore.History;
    forall x, y | x in w.assertions && y in w.assertions && w.assertions[x] == w.assertions[y]
      ensures x == y
    {
      if x in s.assertions { assert AssertionResolves(s, s.assertions[x]); }
      if y in s.assertions { assert AssertionResolves(s, s.assertions[y]); }
    }
  }

  lemma SoundBasics(rs: Ruleset, s: State)
    requires Sound(rs, s)
    ensures s.store.Sound() && s.identity.Keys <= s.store.entities.Keys
    ensures AssertionsResolve(s) && CountersAhead(s)
  {
    hide BlocksDerived;
  }

  /** Nothing stored moves, and the new assertion reads back what was written. */
  lemma WriteAddsOne(rs: Ruleset, s: State, entity: StableId, obs: Observation)
    requires Sound(rs, s) && entity in s.identity && s.index.Check(obs.embedding).None?
    ensures var w := Write(s, entity, obs);
      && w.result == Ok(s.nextAssertion) && s.nextAssertion !in s.assertions
      && w.state.assertions.Keys == s.assertions.Keys + {s.nextAssertion}
      && w.state.index.rows == s.index.rows[s.nextAssertion := obs.embedding]
      && (forall id :: id in s.assertions ==>
            w.state.assertions[id] == s.assertions[id] && Resolve(w.state, id) == Resolve(s, id))
      && w.state.assertions[s.nextAssertion].entity == entity
      && w.state.assertions[s.nextAssertion].attribute == obs.attribute
      && Resolve(w.state, s.nextAssertion) == Some(Written(obs.AsVersion()))
  {
    hide Sound, Write, MemoryStore.Assert, MemoryStore.History, MemoryStore.Sound, TombstonesCorrect, VectorIndex.Check,
      Resolve, AssertionsResolve;
    SoundBasics(rs, s);
    AssertAppends(s.store, entity, obs.attribute, obs.AsVersion());
    WriteShape(s, entity, obs);
    GrownReadings(s, Write(s, entity, obs).state, entity, obs.attribute, Written(obs.AsVersion()));
  }

  /** One log grown by one version that one new assertion names: every other reading stands. */
  lemma GrownReadings(s: State, w: State, entity: StableId, attribute: string, v: Version)
    requires AssertionsResolve(s) && s.nextAssertion !in s.assertions
    requires forall e, a ::
      w.store.History(e, a) == s.store.History(e, a) + (if e == entity && a == attribute then [v] else [])
    requires w.assertions == s.assertions[
      s.nextAssertion := AssertionRef(entity, attribute, |s.store.History(entity, attribute)|)]
    ensures forall id :: id in s.assertions ==> Resolve(w, id) == Resolve(s, id)
    ensures Resolve(w, s.nextAssertion) == Some(v)
  {
    hide MemoryStore.History;
    forall id | id in s.assertions ensures Resolve(w, id) == Resolve(s, id) {
      assert AssertionResolves(s, s.assertions[id]);
    }
  }

  lemma CreateCounts(rs: Ruleset, s: State, obs: Observation)
    ensures CreateEntity(rs, s, obs).0.store.nextId == s.store.nextId + 1
  {
  }

  lemma CreateKeeps(rs: Ruleset, s: State, obs: Observation)
    requires Sound(rs, s)
    ensures var (s', id) := CreateEntity(rs, s, obs);
      && Sound(rs, s') && (Faithful(s) ==> Faithful(s'))
      && id == s.store.nextId && id !in s.identity && id !in s.store.entities
      && s'.identity == s.identity[id := obs.mention]
      && s' == s.(store := s'.store, identity := s'.identity, blocks := s'.blocks)
      && s'.store.edges == s.store.edges
      && (forall e, a :: s'.store.History(e, a) == s.store.History(e, a))
  {
    hide BlocksDerived, Keyed, AssertionsResolve, TombstonesCorrect, MemoryStore.History, MemoryStore.Sound;
    var (s', id) := CreateEntity(rs, s, obs);
    CreatedStore(s.store, obs.kind, obs.provenance.observedAt);
    KeyingKeepsDerived(rs, s.identity, s.blocks, id, obs.mention);
    SameLogsResolve(s, s');
  }

  lemma CreatedStore(store: MemoryStore, kind: string, at: Timestamp)
    requires store.Sound()
    ensures var (store', id) := store.CreateEntity(kind, at);
      && store'.Sound() && id == store.nextId && id !in store.entities
      && store'.entities.Keys == store.entities.Keys + {id} && store'.edges == store.edges
      && (TombstonesCorrect(store) ==> TombstonesCorrect(store'))
      && (forall e, a :: store'.History(e, a) == store.History(e, a))
  {
    var store' := store.CreateEntity(kind, at).0;
    if TombstonesCorrect(store) {
      forall e, a | e in store'.entities && a in store'.entities[e].attributes
        ensures LogCorrects(store'.entities[e].attributes[a])
      {
        assert e in store.entities;
      }
    }
  }

  lemma FoldKeeps(rs: Ruleset, s: State, entity: StableId, mention: Record)
    requires Sound(rs, s)
    ensures var s' := FoldIdentity(rs, s, entity, mention);
      && Sound(rs, s') && (Faithful(s) ==> Faithful(s'))
      && s'.identity.Keys == s.identity.Keys
      && s' == s.(identity := s'.identity, blocks := s'.blocks)
  {
    FoldKeepsDerived(rs, s, entity, mention);
    var s' := FoldIdentity(rs, s, entity, mention);
    forall x | x in s'.assertions ensures AssertionResolves(s', s'.assertions[x]) {
      assert AssertionResolves(s, s.assertions[x]);
    }
  }

  // ----- remembering

  lemma AskableShape(rs: Ruleset, s: State, obs: Observation)
    requires Sound(rs, s)
    ensures var (created, entity) := CreateEntity(rs, s, obs);
      var others := Askable(rs, s, created, entity, obs.mention);
      && (forall i :: 0 <= i < |others| ==> others[i] in s.identity && others[i] < entity)
      && Ascending(others)
  {
    var (created, entity) := CreateEntity(rs, s, obs);
    var others := Askable(rs, s, created, entity, obs.mention);
    forall i | 0 <= i < |others| ensures others[i] in s.identity && others[i] < entity {
      assert others[i] in others;
    }
  }

  lemma QuestionsShape(rs: Ruleset, s: State, entity: StableId, mention: Record, others: seq<StableId>)
    requires forall i :: 0 <= i < |others| ==> others[i] in s.identity && others[i] < entity
    ensures forall id :: id in others ==> id in s.identity
    ensures var asked := Questions(rs, s, entity, mention, others, s.nextReview);
      && (forall q :: q in asked <==> s.nextReview <= q < s.nextReview + |others|)
      && (forall q :: q in asked ==>
            asked[q].id == q && asked[q].a == others[q - s.nextReview] && asked[q].b == entity)
  {
  }

  lemma QuestionsKeep(s: State, asked: map<ReviewId, PendingReview>, entity: StableId, others: seq<StableId>)
    requires ReviewsDistinct(s.review) && ReviewsKnown(s) && CountersAhead(s)
    requires entity !in s.identity && Ascending(others)
    requires forall i :: 0 <= i < |others| ==> others[i] < entity
    requires forall q :: q in asked <==> s.nextReview <= q < s.nextReview + |others|
    requires forall q :: q in asked ==>
      asked[q].id == q && asked[q].a == others[q - s.nextReview] && asked[q].b == entity
    ensures ReviewsDistinct(s.review + asked)
  {
    var review := s.review + asked;
    forall q, r | q in review && r in review && review[q].a == review[r].a && review[q].b == review[r].b
      ensures q == r
    {
      if q !in s.review && r !in s.review {
        var i, j := q - s.nextReview, r - s.nextReview;
        assert others[i] == others[j];
      }
    }
  }

  lemma RememberKeeps(rs: Ruleset, s: State, obs: Observation)
    requires Sound(rs, s)
    ensures var r := Remember(rs, s, obs);
      && Sound(rs, r.state) && (Faithful(s) ==> Faithful(r.state))
      && (r.result.Ok? <==> s.index.Check(obs.embedding).None?)
      && (r.result.Err? ==> r.state == s)
  {
    hide Sound, Faithful, Write, FoldIdentity, CreateEntity, Askable, Questions, CandidateSet;
    if s.index.Check(obs.embedding).None? {
      match BestMatch(rs, s, obs.mention)
      case Some(entity) =>
        WriteKeeps(rs, s, entity, obs);
        FoldKeeps(rs, Write(s, entity, obs).state, entity, obs.mention);
      case None =>
        FreshEntityKeeps(rs, s, obs);
    }
  }

  lemma FreshEntityKeeps(rs: Ruleset, s: State, obs: Observation)
    requires Sound(rs, s) && s.index.Check(obs.embedding).None?
    ensures var (created, entity) := CreateEntity(rs, s, obs);
      var w := Write(created, entity, obs);
      var others := Askable(rs, s, created, entity, obs.mention);
      && w.result.Ok?
      && (forall id :: id in others ==> id in s.identity)
      && var asked := w.state.(
           review := s.review + Questions(rs, s, entity, obs.mention, others, s.nextReview),
           nextReview := s.nextReview + |others|);
         Sound(rs, asked) && (Faithful(s) ==> Faithful(asked))
  {
    hide CreateEntity, Write, Questions, Askable, BlocksDerived, MemoryStore.Sound, MemoryStore.History,
         TombstonesCorrect, VectorIndex.Check;
    CreateKeeps(rs, s, obs);
    AskableShape(rs, s, obs);
    var (created, entity) := CreateEntity(rs, s, obs);
    WriteKeeps(rs, created, entity, obs);
    var w := Write(created, entity, obs).state;
    var others := Askable(rs, s, created, entity, obs.mention);
    QuestionsShape(rs, s, entity, obs.mention, others);
    var questions := Questions(rs, s, entity, obs.mention, others, s.nextReview);
    AskingKeeps(rs, s, w, entity, others, questions);
  }

  lemma AskingKeeps(rs: Ruleset, s: State, w: State, entity: StableId, others: seq<StableId>,
                    questions: map<ReviewId, PendingReview>)
    requires Sound(rs, s) && Sound(rs, w) && s.review == w.review && s.nextReview == w.nextReview
    requires s.identity.Keys <= w.identity.Keys
    requires entity in w.identity && entity !in s.identity && Ascending(others)
    requires forall i :: 0 <= i < |others| ==> others[i] in s.identity && others[i] < entity
    requires forall q :: q in questions <==> s.nextReview <= q < s.nextReview + |others|
    requires forall q :: q in questions ==>
      questions[q].id == q && questions[q].a == others[q - s.nextReview] && questions[q].b == entity
    ensures var asked := w.(review := s.review + questions, nextReview := s.nextReview + |others|);
      Sound(rs, asked) && (Faithful(s) && Faithful(w) ==> Faithful(asked))
  {
    hide BlocksDerived, MemoryStore.Sound, MemoryStore.History, TombstonesCorrect, AssertionsResolve,
      OneAssertionPerVersion, ReviewsDistinct;
    var asked := w.(review := s.review + questions, nextReview := s.nextReview + |others|);
    SameLogsResolve(w, asked);
    if Faithful(s) && Faithful(w) {
      QuestionsKeep(s, questions, entity, others);
    }
  }

  /** What remembering an unmatched mention amounts to. */
  lemma FreshShape(rs: Ruleset, s: State, obs: Observation)
    requires Sound(rs, s) && s.index.Check(obs.embedding).None? && BestMatch(rs, s, obs.mention).None?
    ensures var (created, entity) := CreateEntity(rs, s, obs);
      var w, r := Write(created, entity, obs), Remember(rs, s, obs);
      var others := Askable(rs, s, created, entity, obs.mention);
      && w.result.Ok?
      && (forall id :: id in others ==> id in s.identity)
      && r.state == w.state.(review := s.review + Questions(rs, s, entity, obs.mention, others, s.nextReview),
                             nextReview := s.nextReview + |others|)
      && r.result == Ok(if others == [] then Created(entity, w.result.value)
                        else CreatedPendingReview(entity, w.result.value, Numbers(s.nextReview, |others|)))
  {
    hide Sound, Faithful, BestMatch, Write, CreateEntity, Askable, Questions, VectorIndex.Check;
    FreshEntityKeeps(rs, s, obs);
  }

  lemma RememberAsKeeps(rs: Ruleset, s: State, entity: Option<StableId>, obs: Observation)
    requires Sound(rs, s)
    ensures var r := RememberAs(rs, s, entity, obs);
      && Sound(rs, r.state) && (Faithful(s) ==> Faithful(r.state))
      && (r.result.Ok? <==> s.index.Check(obs.embedding).None? && (entity.Some? ==> entity.value in s.identity))
      && (r.result.Err? ==> r.state == s)
  {
    hide Sound, Faithful, Write, FoldIdentity, CreateEntity;
    if s.index.Check(obs.embedding).None? && (entity.Some? ==> entity.value in s.identity) {
      if entity.Some? {
        FoldKeeps(rs, s, entity.value, obs.mention);
        WriteKeeps(rs, FoldIdentity(rs, s, entity.value, obs.mention), entity.value, obs);
      } else {
        CreateKeeps(rs, s, obs);
        var (created, id) := CreateEntity(rs, s, obs);
        WriteKeeps(rs, created, id, obs);
      }
    }
  }

  // ----- rejecting, forgetting, erasing, relating

  lemma RejectKeeps(rs: Ruleset, s: State, review: ReviewId)
    requires Sound(rs, s)
    ensures Sound(rs, Reject(s, review).state)
    ensures Faithful(s) ==> Faithful(Reject(s, review).state)
  {
    var s' := Reject(s, review).state;
    forall x | x in s'.assertions ensures AssertionResolves(s', s'.assertions[x]) {
      assert AssertionResolves(s, s.assertions[x]);
    }
  }

  /** Dropping a slot's vectors takes its assertions with them and touches nothing else. */
  lemma DropKeeps(rs: Ruleset, s: State, store: MemoryStore, entity: StableId, attribute: string)
    requires Sound(rs, s) && store.Sound() && store.entities.Keys == s.store.entities.Keys
    requires forall e, a :: !(e == entity && a == attribute) ==> store.History(e, a) == s.store.History(e, a)
    ensures var s' := DropVectors(s.(store := store), entity, attribute);
      && Sound(rs, s')
      && (Faithful(s) && TombstonesCorrect(store) ==> Faithful(s'))
      && (forall id :: id in s.assertions && !InSlot(s.assertions[id], entity, attribute) ==>
            id in s'.assertions && s'.assertions[id] == s.assertions[id] && Resolve(s', id) == Resolve(s, id))
      && (forall id :: id in s'.assertions ==> !InSlot(s'.assertions[id], entity, attribute))
  {
    hide BlocksDerived, MemoryStore.Sound, MemoryStore.History, TombstonesCorrect;
    var s' := DropVectors(s.(store := store), entity, attribute);
    forall x | x in s'.assertions ensures AssertionResolves(s', s'.assertions[x]) {
      assert AssertionResolves(s, s.assertions[x]);
      assert x !in SlotIds(s, entity, attribute);
    }
  }

  lemma ForgetKeeps(rs: Ruleset, s: State, entity: StableId, attribute: string, at: Timestamp, prov: Provenance)
    requires Sound(rs, s)
    ensures var r := Forget(s, entity, attribute, at, prov);
      && Sound(rs, r.state) && (Faithful(s) ==> Faithful(r.state))
      && (r.result.Err? ==> r.state == s)
  {
    if entity in s.store.entities {
      AssertAppends(s.store, entity, attribute, Tombstone(at, prov));
      DropKeeps(rs, s, s.store.Assert(entity, attribute, Tombstone(at, prov)).value, entity, attribute);
    }
  }

  lemma EraseKeeps(rs: Ruleset, s: State, entity: StableId, attribute: string)
    requires Sound(rs, s)
    ensures var r := Erase(s, entity, attribute);
      && Sound(rs, r.state) && (Faithful(s) ==> Faithful(r.state))
      && (r.result.Err? ==> r.state == s)
  {
    if entity in s.store.entities {
      var store := s.store.Erase(entity, attribute).value.0;
      if Faithful(s) {
        forall e, a | e in store.entities && a in store.entities[e].attributes
          ensures LogCorrects(store.entities[e].attributes[a])
        {
          assert LogCorrects(s.store.entities[e].attributes[a]);
        }
      }
      DropKeeps(rs, s, store, entity, attribute);
    }
  }

  /** One slot has lost its assertions and their vectors; every other stands, and all else but logs. */
  ghost predicate OnlySlotSilenced(s: State, s': State, entity: StableId, attribute: string) {
    && (forall id :: id in s'.assertions <==>
          id in s.assertions && !(s.assertions[id].entity == entity && s.assertions[id].attribute == attribute))
    && (forall id :: id in s'.assertions ==> s'.assertions[id] == s.assertions[id])
    && s'.index.rows.Keys == s'.assertions.Keys
    && (forall id :: id in s'.index.rows ==> id in s.index.rows && s'.index.rows[id] == s.index.rows[id])
    && s'.index.dim == s.index.dim && s'.index.metric == s.index.metric
    && s'.store.entities.Keys == s.store.entities.Keys
    && s' == s.(store := s.store.(entities := s'.store.entities), assertions := s'.assertions, index := s'.index)
  }

  /** What an erasure destroys is counted, and it is the slot and nothing else. */
  lemma EraseDestroys(rs: Ruleset, s: State, entity: StableId, attribute: string)
    requires Sound(rs, s) && entity in s.store.entities
    ensures var r := Erase(s, entity, attribute);
      && r.result == Ok(|s.store.History(entity, attribute)|)
      && r.state.store.History(entity, attribute) == []
      && (forall e, a :: !(e == entity && a == attribute) ==> r.state.store.History(e, a) == s.store.History(e, a))
      && OnlySlotSilenced(s, r.state, entity, attribute)
      && (forall id :: id in r.state.assertions ==> Resolve(r.state, id) == Resolve(s, id))
  {
    var store := s.store.Erase(entity, attribute).value.0;
    ErasedLogs(s.store, entity, attribute);
    ErasedEntities(s.store, entity, attribute);
    SoundBasics(rs, s);
    VectorsAreAssertions(rs, s);
    DropSilences(s, store, entity, attribute);
    hide MemoryStore.Erase, DropVectors, OnlySlotSilenced, MemoryStore.History, AssertionsResolve, Sound;
  }

  lemma ErasedLogs(store: MemoryStore, entity: StableId, attribute: string)
    requires entity in store.entities
    ensures var r := store.Erase(entity, attribute);
      && r.Ok? && r.value.1 == |store.History(entity, attribute)|
      && r.value.0.History(entity, attribute) == []
      && (forall e, a :: !(e == entity && a == attribute) ==> r.value.0.History(e, a) == store.History(e, a))
  {
  }

  lemma ErasedEntities(store: MemoryStore, entity: StableId, attribute: string)
    requires entity in store.entities
    ensures var store' := store.Erase(entity, attribute).value.0;
      store'.entities.Keys == store.entities.Keys && store' == store.(entities := store'.entities)
  {
  }

  lemma VectorsAreAssertions(rs: Ruleset, s: State)
    requires Sound(rs, s)
    ensures s.index.rows.Keys == s.assertions.Keys
  {
  }

  /** Dropping a slot's vectors over a store that kept every other log silences that slot and no other. */
  lemma DropSilences(s: State, store: MemoryStore, entity: StableId, attribute: string)
    requires AssertionsResolve(s) && s.index.rows.Keys == s.assertions.Keys
    requires store.entities.Keys == s.store.entities.Keys && store == s.store.(entities := store.entities)
    requires forall e, a :: !(e == entity && a == attribute) ==> store.History(e, a) == s.store.History(e, a)
    ensures var s' := DropVectors(s.(store := store), entity, attribute);
      && s'.store == store && OnlySlotSilenced(s, s', entity, attribute)
      && forall id :: id in s'.assertions ==> Resolve(s', id) == Resolve(s, id)
  {
    hide MemoryStore.History;
    var s' := DropVectors(s.(store := store), entity, attribute);
    forall id | id in s'.assertions ensures Resolve(s', id) == Resolve(s, id) {
      assert AssertionResolves(s, s.assertions[id]);
    }
  }

  /** Forgetting appends one tombstone and silences the slot; nothing recorded is lost. */
  lemma ForgetSilences(rs: Ruleset, s: State, entity: StableId, attribute: string, at: Timestamp, prov: Provenance)
    requires Sound(rs, s) && entity in s.store.entities
    ensures var r := Forget(s, entity, attribute, at, prov);
      && r.result.Ok?
      && (forall e, a :: r.state.store.History(e, a) ==
            s.store.History(e, a) +
            (if e == entity && a == attribute then [Version(None, Since(at), prov, Corrects, None)] else []))
      && OnlySlotSilenced(s, r.state, entity, attribute)
  {
    SoundBasics(rs, s);
    AssertAppends(s.store, entity, attribute, Tombstone(at, prov));
    AssertedEntities(s.store, entity, attribute, Tombstone(at, prov));
    VectorsAreAssertions(rs, s);
    hide MemoryStore.Assert, DropVectors, OnlySlotSilenced, MemoryStore.History, AssertionsResolve, Sound,
         TombstonesCorrect, MemoryStore.Sound;
    DropSilences(s, s.store.Assert(entity, attribute, Tombstone(at, prov)).value, entity, attribute);
  }

  lemma AssertedEntities(store: MemoryStore, entity: StableId, attribute: string, v: Version)
    requires entity in store.entities
    ensures var store' := store.Assert(entity, attribute, v);
      && store'.Ok? && store'.value.entities.Keys == store.entities.Keys
      && store'.value == store.(entities := store'.value.entities)
  {
  }

  /** Forgetting, erasing and isolating all refuse an unheld entity by its id. */
  lemma UnknownIsRefused(s: State, entity: StableId, attribute: string, at: Timestamp, prov: Provenance)
    ensures Forget(s, entity, attribute, at, prov).result.Err? <==> entity !in s.store.entities
    ensures entity !in s.store.entities ==>
      && Forget(s, entity, attribute, at, prov) == Step(s, Err(NoSuchEntity(entity)))
      && Erase(s, entity, attribute) == Step(s, Err(NoSuchEntity(entity)))
      && EraseEdges(s, entity) == Step(s, Err(NoSuchEntity(entity)))
  {
  }

  /** A vector no index of this kind takes, an entity or a question nobody knows: refused by name, unchanged. */
  lemma RefusalsAreNamed(rs: Ruleset, s: State, entity: Option<StableId>, obs: Observation, review: ReviewId)
    ensures !Usable(s.index.dim, s.index.metric, obs.embedding) ==>
      var why := Complaint(s.index.dim, obs.embedding);
      && Remember(rs, s, obs) == Step(s, Err(IndexRefused(why)))
      && RememberAs(rs, s, entity, obs) == Step(s, Err(IndexRefused(why)))
    ensures Usable(s.index.dim, s.index.metric, obs.embedding) && entity.Some? && entity.value !in s.identity ==>
      RememberAs(rs, s, entity, obs) == Step(s, Err(NoSuchEntity(entity.value)))
    ensures review !in s.review ==>
      && Confirm(rs, s, review) == Step(s, Err(NoSuchReview(review)))
      && Reject(s, review) == Step(s, Err(NoSuchReview(review)))
  {
    hide BestMatch, Write, FoldIdentity, CreateEntity;
  }

  /** What is wrong with a vector that is not usable: its length, else a component, else that it is zero. */
  function Complaint(dim: nat, v: Vector): IndexError {
    if |v| != dim then DimensionMismatch
    else if NotFinite in v then NotFiniteComponent
    else ZeroVectorUnderCosine
  }

  lemma StoreSwapKeeps(rs: Ruleset, s: State, store: MemoryStore)
    requires Sound(rs, s) && store.Sound() && store.entities == s.store.entities
    ensures Sound(rs, s.(store := store))
    ensures Faithful(s) ==> Faithful(s.(store := store))
  {
    var s' := s.(store := store);
    forall x | x in s'.assertions ensures AssertionResolves(s', s'.assertions[x]) {
      assert AssertionResolves(s, s.assertions[x]);
    }
  }

  lemma EraseEdgesKeeps(rs: Ruleset, s: State, entity: StableId)
    requires Sound(rs, s)
    ensures Sound(rs, EraseEdges(s, entity).state)
    ensures Faithful(s) ==> Faithful(EraseEdges(s, entity).state)
    ensures EraseEdges(s, entity).result.Ok? ==>
      && (forall t :: t in EraseEdges(s, entity).state.store.edges <==>
            t in s.store.edges && t.subject != entity && t.object_ != entity)
      && (forall t :: t in EraseEdges(s, entity).state.store.edges ==>
            EraseEdges(s, entity).state.store.edges[t] == s.store.edges[t])
      && EraseEdges(s, entity).state == s.(store := s.store.(edges := EraseEdges(s, entity).state.store.edges))
      && |EraseEdges(s, entity).state.store.edges| + EraseEdges(s, entity).result.value == |s.store.edges|
  {
    if entity in s.store.entities {
      var gone := s.store.Touching(entity);
      assert (s.store.edges - gone).Keys == s.store.edges.Keys - gone;
      assert |(s.store.edges - gone).Keys| == |s.store.edges - gone| && |s.store.edges.Keys| == |s.store.edges|;
      StoreSwapKeeps(rs, s, s.store.EraseEdges(entity).value.0);
    }
  }

  lemma PushEdgeKeeps(rs: Ruleset, s: State, t: Triple, v: EdgeVersion)
    requires Sound(rs, s)
    ensures Sound(rs, PushEdge(s, t, v).state)
    ensures Faithful(s) ==> Faithful(PushEdge(s, t, v).state)
  {
    match s.store.PushEdge(t, v)
    case Err(_) =>
    case Ok(store) => StoreSwapKeeps(rs, s, store);
  }

  lemma RebuildKeeps(rs: Ruleset, s: State, dim: nat, metric: Metric, rows: seq<Row>)
    requires Sound(rs, s)
    ensures Sound(rs, RebuiltIndex(s, dim, metric, rows))
    ensures Faithful(s) ==> Faithful(RebuiltIndex(s, dim, metric, rows))
  {
    hide BlocksDerived, MemoryStore.Sound, MemoryStore.History, TombstonesCorrect, AssertionsResolve;
    RebuiltFits(s, dim, metric, rows);
    SameLogsResolve(s, RebuiltIndex(s, dim, metric, rows));
  }

  lemma RebuiltFits(s: State, dim: nat, metric: Metric, rows: seq<Row>)
    ensures Rebuildable(s, dim, metric, rows) ==> VectorIndex(dim, metric, RowsOf(rows)).RowsFit()
  {
    hide RowsOf;
  }

  /** A vector an index of this dimension and metric takes: right length, finite, and not zero under cosine. */
  predicate Usable(dim: nat, metric: Metric, v: Vector) {
    |v| == dim && NotFinite !in v && (metric == Cosine ==> exists c :: c in v && c != Finite(0.0))
  }

  /** The last row given for its id. */
  predicate LastRow(rows: seq<Row>, i: nat) {
    i < |rows| && forall j :: i < j < |rows| ==> rows[j].id != rows[i].id
  }

  lemma {:induction false} RowIsLast(rows: seq<Row>, i: nat)
    requires LastRow(rows, i)
    ensures rows[i].id in RowsOf(rows) && RowsOf(rows)[rows[i].id] == rows[i].vector
  {
    RowsGrow(rows);
    hide RowsOf;
    var n := |rows| - 1;
    if i < n {
      assert rows[n].id != rows[i].id;
      RowIsLast(rows[..n], i);
    }
  }

  lemma RowsGrow(rows: seq<Row>)
    requires rows != []
    ensures var n := |rows| - 1; RowsOf(rows) == RowsOf(rows[..n])[rows[n].id := rows[n].vector]
  {
  }

  /** Every row a usable vector for an assertion, and no assertion without one. */
  predicate Covers(s: State, dim: nat, metric: Metric, rows: seq<Row>) {
    && (forall r :: r in rows ==> r.id in s.assertions && Usable(dim, metric, r.vector))
    && (forall id :: id in s.assertions ==> exists r :: r in rows && r.id == id)
  }

  lemma RebuildableIsCovered(s: State, dim: nat, metric: Metric, rows: seq<Row>)
    ensures Rebuildable(s, dim, metric, rows) <==> Covers(s, dim, metric, rows)
  {
    forall v: Vector ensures VectorIndex(dim, metric, map[]).Check(v).None? <==> Usable(dim, metric, v) {
      UsableIsChecked(dim, metric, v);
    }
    hide RowsOf, VectorIndex.Check, Usable;
    if RowsAccepted(s, VectorIndex(dim, metric, map[]), rows) {
      assert RowsOf(rows).Keys <= s.assertions.Keys;
    }
  }

  /**
   A rebuild happens exactly when the rows cover the assertions; it leaves the dimension and metric
   asked for and, of each assertion, the last vector given. Otherwise it changes nothing.
   */
  lemma RebuildInstalls(s: State, dim: nat, metric: Metric, rows: seq<Row>)
    ensures var s' := RebuiltIndex(s, dim, metric, rows);
      if Covers(s, dim, metric, rows) then
        && s' == s.(index := s'.index) && s'.index.dim == dim && s'.index.metric == metric
        && s'.index.rows.Keys == s.assertions.Keys
        && (forall i: nat :: LastRow(rows, i) ==>
              rows[i].id in s'.index.rows && s'.index.rows[rows[i].id] == rows[i].vector)
      else s' == s
  {
    hide RowsOf, Covers, RowsAccepted;
    forall i: nat | LastRow(rows, i)
      ensures rows[i].id in RowsOf(rows) && RowsOf(rows)[rows[i].id] == rows[i].vector
    {
      RowIsLast(rows, i);
    }
    hide LastRow;
    RebuildableIsCovered(s, dim, metric, rows);
  }

  lemma UsableIsChecked(dim: nat, metric: Metric, v: Vector)
    ensures VectorIndex(dim, metric, map[]).Check(v).None? <==> Usable(dim, metric, v)
  {
  }
}
