/**
 The engine: a class whose methods update its own structures in place.

 Each method is proved against the function of the same name in `EngineState`, which says what
 state it leaves and what it answers.
 */
module Engine {
  import opened Core
  import opened Ordering
  import opened Store
  import opened Resolution
  import opened EngineState
  import opened EngineInvariant
  import opened EngineLaws
  import opened MergeLaws
  import opened Persist
  import opened EngineLoops

  class Engine {
    const ruleset: Ruleset

    var store: MemoryStore
    var index: VectorIndex
    var identity: map<StableId, Record>
    var blocks: Blocks
    var assertions: map<AssertionId, AssertionRef>
    var review: map<ReviewId, PendingReview>
    var rejected: set<Settled>
    var nextAssertion: AssertionId
    var nextReview: ReviewId

    ghost function View(): State
      reads this
    {
      State(store, index, identity, blocks, assertions, review, rejected, nextAssertion, nextReview)
    }

    ghost predicate Valid()
      reads this
    {
      Sound(ruleset, View())
    }

    /** Nothing stored yet, and whatever index it was handed. */
    constructor (index: VectorIndex, ruleset: Ruleset)
      ensures View() == New(index) && this.ruleset == ruleset
      ensures index.rows == map[] ==> Valid()
    {
      this.ruleset := ruleset;
      this.index := index;
      store := MemoryStore(map[], 0, map[]);
      identity, blocks, assertions, review := map[], map[], map[], map[];
      rejected := {};
      nextAssertion, nextReview := 0, 0;
    }

    /** The parts of a checked snapshot, with the blocking map still to be rebuilt. */
    constructor FromParts(p: Persisted, ruleset: Ruleset)
      ensures View() == Restored(ruleset, p).(blocks := map[]) && this.ruleset == ruleset
    {
      this.ruleset := ruleset;
      store, index, identity := p.store, p.index, p.identity;
      blocks := map[];
      assertions, review, rejected := p.assertions, p.review, p.rejected;
      nextAssertion, nextReview := p.nextAssertion, p.nextReview;
    }

    // ----- blocking and identity

    /** After this the entity stands in the block of each of its record's keys, once. */
    method KeyEntity(entity: StableId, record: Record)
      modifies this`blocks
      ensures blocks == Keyed(old(blocks), entity, ruleset.KeysFor(record))
    {
      var keys := ruleset.KeysFor(record);
      for i := 0 to |keys|
        invariant blocks == Keyed(old(blocks), entity, keys[..i])
      {
        var ids := BlockOf(blocks, keys[i]);
        KeyedOneMore(old(blocks), entity, keys, i);
        if entity !in ids {
          blocks := blocks[keys[i] := ids + [entity]];
        } else {
          blocks := blocks[keys[i] := ids];
        }
      }
      assert keys[..|keys|] == keys;
    }

    /** Sorts the union of the mention's blocks; nothing blocking, every entity is considered. */
    method Candidates(mention: Record) returns (ids: seq<StableId>)
      requires Valid()
      ensures ids == InOrder(CandidateSet(ruleset, View(), mention))
    {
      if ruleset.blocking == [] {
        return InOrder(identity.Keys);
      }
      var keys := ruleset.KeysFor(mention);
      var seen: seq<StableId> := [];
      for i := 0 to |keys|
        invariant MemberIds(seen) == Under(blocks, keys[..i])
      {
        var ids := BlockOf(blocks, keys[i]);
        for j := 0 to |ids|
          invariant MemberIds(seen) == Under(blocks, keys[..i]) + MemberIds(ids[..j])
        {
          assert ids[..j + 1] == ids[..j] + [ids[j]];
          OneMoreId(seen, ids[j]);
          OneMoreId(ids[..j], ids[j]);
          if ids[j] !in seen {
            seen := seen + [ids[j]];
          }
        }
        assert ids[..|ids|] == ids;
        UnderOneMore(blocks, keys, i);
      }
      assert keys[..|keys|] == keys;
      UnderIsCandidates(ruleset, View(), mention);
      ids := InOrder(set id | id in seen);
    }

    /** Fold a mention's fields into what is held, and key whatever new fields unlock. */
    method RememberIdentity(entity: StableId, mention: Record)
      modifies this`identity, this`blocks
      ensures View() == FoldIdentity(ruleset, old(View()), entity, mention)
    {
      if entity !in identity {
        return;
      }
      var record, learned := FoldFields(identity[entity], mention);
      if !learned {
        return;
      }
      identity := identity[entity := record];
      KeyEntity(entity, record);
    }

    /** Take the fields arriving for the first time, and say whether there were any. */
    static method FoldFields(known: Record, mention: Record) returns (record: Record, learned: bool)
      ensures record == Folded(known, mention)
      ensures learned <==> !(mention.Keys <= known.Keys)
    {
      hide Folded;
      record, learned := known, false;
      var todo := mention.Keys;
      NothingTaken(known, mention);
      while todo != {}
        invariant todo <= mention.Keys
        invariant record == Taken(known, mention, todo)
        invariant learned <==> exists field :: field in mention.Keys - todo && field !in known
        decreases |todo|
      {
        var field :| field in todo;
        OneMoreTaken(known, mention, todo, field);
        if field !in known {
          record := record[field := mention[field]];
          learned := true;
        }
        todo := todo - {field};
      }
      AllTaken(known, mention);
    }

    // ----- writing

    method CreateEntity(obs: Observation) returns (id: StableId)
      modifies this`store, this`blocks, this`identity
      ensures (View(), id) == EngineState.CreateEntity(ruleset, old(View()), obs)
    {
      var (grown, fresh_) := store.CreateEntity(obs.kind, obs.provenance.observedAt);
      store, id := grown, fresh_;
      KeyEntity(id, obs.mention);
      identity := identity[id := obs.mention];
    }

    /** The version, its vector and its assertion, in that order. */
    method Write(entity: StableId, obs: Observation) returns (r: Result<AssertionId, EngineError>)
      modifies this`store, this`index, this`assertions, this`nextAssertion
      ensures Step(View(), r) == EngineState.Write(old(View()), entity, obs)
    {
      var written := store.Assert(entity, obs.attribute, obs.AsVersion());
      if written.Err? {
        return Err(StoreRefused(written.error));
      }
      store := written.value;
      var version := |store.History(entity, obs.attribute)| - 1;
      var id := nextAssertion;
      nextAssertion := nextAssertion + 1;
      var inserted := index.Insert(id, obs.embedding);
      if inserted.Err? {
        return Err(IndexRefused(inserted.error));
      }
      index := inserted.value;
      assertions := assertions[id := AssertionRef(entity, obs.attribute, version)];
      return Ok(id);
    }

    // ----- remembering

    /** The best match, and every candidate in the review band, in ascending order. */
    method ScoreCandidates(mention: Record) returns (best: Option<Scored>, review: seq<Scored>)
      requires Valid()
      ensures best.Some? ==> BestMatch(ruleset, View(), mention) == Some(best.value.id)
      ensures best.None? ==> BestMatch(ruleset, View(), mention).None?
      ensures Ids(review) ==
        Filter(InBand(ruleset, View(), mention, Review), InOrder(CandidateSet(ruleset, View(), mention)))
      ensures forall p :: p in review ==> p.id in identity && p.score == ScoreOf(ruleset, View(), mention, p.id)
    {
      hide CandidateSet, Filter, InOrder, Sound, BestSoFar;
      var ids := Candidates(mention);
      ghost var s, inReview := View(), InBand(ruleset, View(), mention, Review);
      best, review := None, [];
      NothingScored(ruleset, s, mention, ids, inReview);
      for i := 0 to |ids|
        invariant View() == s
        invariant BestSoFar(ruleset, s, mention, ids[..i], best)
        invariant Ids(review) == Filter(inReview, ids[..i])
        invariant forall p :: p in review ==> p.id in identity && p.score == ScoreOf(ruleset, s, mention, p.id)
      {
        var id := ids[i];
        OneMoreScored(ruleset, s, mention, ids, i, best, inReview);
        if id !in identity {
          continue;
        }
        var score := ruleset.score(mention, identity[id]);
        match ruleset.Decide(score) {
          case Match =>
            if best.None? || score > best.value.score {
              best := Some(Scored(id, score));
            }
          case Review => review := review + [Scored(id, score)];
          case NonMatch =>
        }
      }
      assert ids[..|ids|] == ids;
      BestOfAll(ruleset, View(), mention, ids, best);
    }

    method FileReview(a: StableId, b: StableId, score: real) returns (id: ReviewId)
      modifies this`review, this`nextReview
      ensures id == old(nextReview) && nextReview == old(nextReview) + 1
      ensures review == old(review)[id := PendingReview(id, PairOf(a, b).lower, PairOf(a, b).higher, score)]
    {
      id := nextReview;
      nextReview := nextReview + 1;
      review := review[id := PendingReview(id, if a <= b then a else b, if a <= b then b else a, score)];
    }

    method FileReviews(entity: StableId, pairs: seq<Scored>) returns (ids: seq<ReviewId>)
      modifies this`review, this`nextReview
      ensures ids == Numbers(old(nextReview), |pairs|)
      ensures nextReview == old(nextReview) + |pairs|
      ensures review == old(review) + Filed(entity, pairs, old(nextReview))
    {
      hide Filed;
      NothingFiled(review, entity, pairs, nextReview);
      ids := [];
      for i := 0 to |pairs|
        invariant ids == Numbers(old(nextReview), i)
        invariant nextReview == old(nextReview) + i
        invariant review == old(review) + Filed(entity, pairs[..i], old(nextReview))
      {
        var id := FileReview(entity, pairs[i].id, pairs[i].score);
        ids := ids + [id];
        FiledOneMore(old(review), entity, pairs, i, old(nextReview));
      }
      assert pairs[..|pairs|] == pairs;
    }

    method Remember(obs: Observation) returns (r: Result<Remembered, EngineError>)
      requires Valid()
      modifies this
      ensures Step(View(), r) == EngineState.Remember(ruleset, old(View()), obs)
      ensures Valid()
    {
      ghost var s := View();
      RememberKeeps(ruleset, s, obs);
      var refusal := index.Check(obs.embedding);
      if refusal.Some? {
        return Err(IndexRefused(refusal.value));
      }
      var best, pairs := ScoreCandidates(obs.mention);
      if best.Some? {
        r := MergeOnto(best.value.id, obs);
      } else {
        r := CreateAndAsk(obs, pairs);
      }
    }

    /** With a best match the near ones raise no question. */
    method MergeOnto(entity: StableId, obs: Observation) returns (r: Result<Remembered, EngineError>)
      requires Valid() && index.Check(obs.embedding).None?
      requires BestMatch(ruleset, View(), obs.mention) == Some(entity)
      modifies this
      ensures Step(View(), r) == EngineState.Remember(ruleset, old(View()), obs)
    {
      hide Sound, VectorIndex.Check, BestMatch, EngineState.Write, FoldIdentity;
      var written := Write(entity, obs);
      if written.Err? {
        return Err(written.error);
      }
      RememberIdentity(entity, obs.mention);
      return Ok(Merged(entity, written.value));
    }

    method CreateAndAsk(obs: Observation, pairs: seq<Scored>) returns (r: Result<Remembered, EngineError>)
      requires Valid() && index.Check(obs.embedding).None?
      requires BestMatch(ruleset, View(), obs.mention).None?
      requires Ids(pairs) ==
        Filter(InBand(ruleset, View(), obs.mention, Review), InOrder(CandidateSet(ruleset, View(), obs.mention)))
      requires forall p :: p in pairs ==> p.id in identity && p.score == ScoreOf(ruleset, View(), obs.mention, p.id)
      modifies this
      ensures Step(View(), r) == EngineState.Remember(ruleset, old(View()), obs)
    {
      hide Sound, VectorIndex.Check, BestMatch, EngineState.Write, EngineState.CreateEntity, EngineState.Remember,
        Questions, Filed, Askable, Filter, CandidateSet, InOrder, Numbers;
      ghost var s := View();
      FreshShape(ruleset, s, obs);
      var entity := CreateEntity(obs);
      ghost var created := View();
      CreateKeeps(ruleset, s, obs);
      WriteKeeps(ruleset, created, entity, obs);
      var written := Write(entity, obs);
      // The vector was checked before anything was touched, so the write cannot have been refused.
      assert written.Ok?;
      var asked := Unanswered(entity, pairs);
      AskedIsAskable(ruleset, s, created, View(), entity, obs.mention, pairs, asked);
      var filed := FileReviews(entity, asked);
      if filed == [] {
        return Ok(Created(entity, written.value));
      }
      return Ok(CreatedPendingReview(entity, written.value, filed));
    }

    /** Filters out the pairs whose records were told apart before. */
    method Unanswered(entity: StableId, pairs: seq<Scored>) returns (kept: seq<Scored>)
      ensures kept == Filter(NotAnswered(View(), entity), pairs)
    {
      hide Filter;
      kept := [];
      FilterNothing(NotAnswered(View(), entity));
      assert pairs[..0] == [];
      for i := 0 to |pairs|
        invariant kept == Filter(NotAnswered(View(), entity), pairs[..i])
      {
        assert pairs[..i + 1] == pairs[..i] + [pairs[i]];
        FilterOneMore(NotAnswered(View(), entity), pairs[..i], pairs[i]);
        if !AnsweredNo(identity, rejected, entity, pairs[i].id) {
          kept := kept + [pairs[i]];
        }
      }
      assert pairs[..|pairs|] == pairs;
    }

    method RememberAs(entity: Option<StableId>, obs: Observation) returns (r: Result<Pinned, EngineError>)
      requires Valid()
      modifies this
      ensures Step(View(), r) == EngineState.RememberAs(ruleset, old(View()), entity, obs)
      ensures Valid()
    {
      RememberAsKeeps(ruleset, View(), entity, obs);
      var refusal := index.Check(obs.embedding);
      if refusal.Some? {
        return Err(IndexRefused(refusal.value));
      }
      var id;
      if entity.Some? {
        id := entity.value;
        if id !in identity {
          return Err(NoSuchEntity(id));
        }
        RememberIdentity(id, obs.mention);
      } else {
        id := CreateEntity(obs);
      }
      var written := Write(id, obs);
      // The vector was checked before anything was touched, so the write cannot have been refused.
      assert written.Ok?;
      return Ok(Pinned(id, written.value));
    }

    // ----- answering a review

    /** Merge the two of one open question; of the pair the higher id disappears. */
    method Confirm(id: ReviewId) returns (r: Result<StableId, EngineError>)
      requires Valid()
      modifies this
      ensures Step(View(), r) == EngineState.Confirm(ruleset, old(View()), id)
      ensures Valid()
    {
      hide EngineState.Confirm, MergedInto, Sound;
      ghost var s := View();
      ConfirmKeeps(ruleset, s, id);
      ConfirmIs(ruleset, s, id);
      if id !in review {
        return Err(NoSuchReview(id));
      }
      var pair := review[id];
      review := review - {id};
      var kept, absorbed := if pair.a <= pair.b then pair.a else pair.b, if pair.a <= pair.b then pair.b else pair.a;
      if kept == absorbed {
        return Ok(kept);
      }
      BothKnown(ruleset, s, id);
      MergeInto(kept, absorbed);
      return Ok(kept);
    }

    /** Everything that follows one entity becoming another. */
    method MergeInto(kept: StableId, absorbed: StableId)
      requires kept in store.entities && absorbed in store.entities && kept != absorbed
      modifies this
      ensures View() == MergedInto(ruleset, old(View()), kept, absorbed)
    {
      hide FoldIdentity, MergedStore, MergedReviews, MergedRejections, MergedIdentity, Adopted;
      ghost var s := View();
      var offsets := MoveVersions(kept, absorbed);
      AdoptAssertions(absorbed, kept, offsets, s.store);
      assert View() == s.(store := MergedStore(s.store, kept, absorbed),
        assertions := map x | x in s.assertions :: Adopted(s.assertions[x], s.store, kept, absorbed));
      MergeIdentity(kept, absorbed);
      RenameReviews(kept, absorbed);
      RenameRejections(kept, absorbed);
    }

    /** Copy first, erase second, then repoint the edges; what is returned was read before any of it. */
    method MoveVersions(kept: StableId, absorbed: StableId) returns (offsets: map<string, nat>)
      requires kept in store.entities && absorbed in store.entities && kept != absorbed
      modifies this`store
      ensures store == MergedStore(old(store), kept, absorbed)
      ensures offsets == Offsets(old(store), kept, absorbed)
    {
      hide PartlyMerged, MergedStore, AttributeMoved;
      var attributes := store.entities[absorbed].attributes.Keys;
      offsets := map a | a in attributes :: |store.History(kept, a)|;
      NothingMerged(store, kept, absorbed);
      var todo := attributes;
      while todo != {}
        invariant todo <= attributes
        invariant store == PartlyMerged(old(store), kept, absorbed, todo)
        decreases |todo|
      {
        var attribute :| attribute in todo;
        OneMoreMerged(old(store), kept, absorbed, todo, attribute);
        PartKnows(old(store), kept, absorbed, todo);
        MoveAttribute(kept, absorbed, attribute);
        todo := todo - {attribute};
      }
      AllMerged(old(store), kept, absorbed);
      var repointed := store.RepointEdges(absorbed, kept);
      store := repointed.value;
    }

    /** Re-append one attribute's versions under the survivor, in order, and erase them. */
    method MoveAttribute(kept: StableId, absorbed: StableId, attribute: string)
      requires kept in store.entities && absorbed in store.entities && kept != absorbed
      modifies this`store
      ensures store == AttributeMoved(old(store), kept, absorbed, attribute)
    {
      hide Copied;
      var versions := store.History(absorbed, attribute);
      NothingCopied(store, kept, attribute);
      assert versions[..0] == [];
      for i := 0 to |versions|
        invariant store == Copied(old(store), kept, attribute, versions[..i])
      {
        CopiedOneMore(old(store), kept, attribute, versions, i);
        // The claim and the holder move with the version: a merge rewrites neither.
        var appended := store.Assert(kept, attribute, versions[i]);
        store := appended.value;
      }
      assert versions[..|versions|] == versions;
      CopiedLeaves(old(store), kept, absorbed, attribute, versions);
      var erased := store.Erase(absorbed, attribute);
      store := erased.value.0;
    }

    /** Each adopted assertion's version number is shifted by how long the survivor's log was. */
    method AdoptAssertions(absorbed: StableId, kept: StableId, offsets: map<string, nat>, ghost before: MemoryStore)
      requires absorbed in before.entities && offsets == Offsets(before, kept, absorbed)
      modifies this`assertions
      ensures assertions == map id | id in old(assertions) :: Adopted(old(assertions)[id], before, kept, absorbed)
    {
      var todo := assertions.Keys;
      while todo != {}
        invariant todo <= old(assertions).Keys == assertions.Keys
        invariant forall id :: id in todo ==> assertions[id] == old(assertions)[id]
        invariant forall id :: id in assertions && id !in todo ==>
          assertions[id] == Adopted(old(assertions)[id], before, kept, absorbed)
        decreases |todo|
      {
        var id :| id in todo;
        var entry := assertions[id];
        todo := todo - {id};
        if entry.entity != absorbed {
          continue;
        }
        var offset := if entry.attribute in offsets then offsets[entry.attribute] else 0;
        assertions := assertions[id := AssertionRef(kept, entry.attribute, entry.version + offset)];
      }
    }

    /** The blocks afterwards: without the absorbed id, and with the survivor under the folded record's keys. */
    method MergeIdentity(kept: StableId, absorbed: StableId)
      modifies this`identity, this`blocks
      ensures View() == MergedIdentity(ruleset, old(View()), kept, absorbed)
    {
      hide FoldIdentity, Unkeyed;
      if absorbed !in identity {
        return;
      }
      var record := identity[absorbed];
      identity := identity - {absorbed};
      Strike(absorbed);
      RememberIdentity(kept, record);
    }

    method Strike(entity: StableId)
      modifies this`blocks
      ensures blocks == Unkeyed(old(blocks), entity)
    {
      hide Struck, Unkeyed;
      NothingStruck(blocks, entity);
      var todo := blocks.Keys;
      while todo != {}
        invariant todo <= old(blocks).Keys
        invariant blocks == Struck(old(blocks), entity, todo)
        decreases |todo|
      {
        var key :| key in todo;
        OneMoreStruck(old(blocks), entity, todo, key);
        blocks := blocks[key := Filter(Other(entity), blocks[key])];
        todo := todo - {key};
      }
      AllStruck(old(blocks), entity);
      // An emptied block is removed.
      blocks := map k | k in blocks && blocks[k] != [] :: blocks[k];
    }

    /** Open questions now name the survivor; those settled by the merge, or asked already, go. */
    method RenameReviews(kept: StableId, absorbed: StableId)
      modifies this`review
      ensures review == MergedReviews(old(review), kept, absorbed)
    {
      hide RenamedSoFar, MergedReviews, InOrder;
      var order := InOrder(review.Keys);
      var seen: set<Settled> := {};
      NothingRenamed(review, order, kept, absorbed);
      for i := 0 to |order|
        invariant RenamedSoFar(old(review), review, seen, order, i, kept, absorbed)
      {
        OneMoreRenamed(old(review), review, seen, order, i, kept, absorbed);
        var p := review[order[i]];
        var a := if p.a == absorbed then kept else p.a;
        var b := if p.b == absorbed then kept else p.b;
        var pair := PairOf(a, b);
        if a == b || pair in seen {
          review := review - {order[i]};
        } else {
          review := review[order[i] := p.(a := pair.lower, b := pair.higher)];
          seen := seen + {pair};
        }
      }
      AllRenamed(old(review), review, seen, order, kept, absorbed);
    }

    /** Rebuilds the set of answered pairs under the merged names, without those that became one entity. */
    method RenameRejections(kept: StableId, absorbed: StableId)
      modifies this`rejected
      ensures rejected == MergedRejections(old(rejected), kept, absorbed)
    {
      var todo, renamed := rejected, {};
      while todo != {}
        invariant todo <= old(rejected)
        invariant renamed == MergedRejections(old(rejected) - todo, kept, absorbed)
        decreases |todo|
      {
        var pair :| pair in todo;
        OneMoreRejection(old(rejected), todo, pair, kept, absorbed);
        var x := if pair.lower == absorbed then kept else pair.lower;
        var y := if pair.higher == absorbed then kept else pair.higher;
        if x != y {
          renamed := renamed + {PairOf(x, y)};
        }
        todo := todo - {pair};
      }
      assert old(rejected) - {} == old(rejected);
      rejected := renamed;
    }

    /** Close one question and remember its two records as told apart. */
    method Reject(id: ReviewId) returns (r: Result<(), EngineError>)
      requires Valid()
      modifies this
      ensures Step(View(), r) == EngineState.Reject(old(View()), id)
      ensures Valid()
    {
      RejectKeeps(ruleset, View(), id);
      if id !in review {
        return Err(NoSuchReview(id));
      }
      var pair := review[id];
      review := review - {id};
      rejected := rejected + {PairOf(pair.a, pair.b)};
      return Ok(());
    }

    // ----- forgetting

    /** Append a tombstone and drop the attribute's vectors; earlier reads still answer. */
    method Forget(entity: StableId, attribute: string, at: Timestamp, prov: Provenance)
      returns (r: Result<(), EngineError>)
      requires Valid()
      modifies this
      ensures Step(View(), r) == EngineState.Forget(old(View()), entity, attribute, at, prov)
      ensures Valid()
    {
      hide Sound, EngineState.DropVectors;
      ForgetKeeps(ruleset, View(), entity, attribute, at, prov);
      var written := store.Assert(entity, attribute, Version(None, Since(at), prov, Corrects, None));
      if written.Err? {
        return Err(OnWrite(written.error));
      }
      store := written.value;
      DropVectors(entity, attribute);
      return Ok(());
    }

    /** Empty one slot: its log, its assertions and what was indexed for them. */
    method Erase(entity: StableId, attribute: string) returns (r: Result<nat, EngineError>)
      requires Valid()
      modifies this
      ensures Step(View(), r) == EngineState.Erase(old(View()), entity, attribute)
      ensures Valid()
    {
      hide Sound, EngineState.DropVectors;
      EraseKeeps(ruleset, View(), entity, attribute);
      var erased := store.Erase(entity, attribute);
      if erased.Err? {
        return Err(OnWrite(erased.error));
      }
      store := erased.value.0;
      DropVectors(entity, attribute);
      return Ok(erased.value.1);
    }

    method EraseEdges(entity: StableId) returns (r: Result<nat, EngineError>)
      requires Valid()
      modifies this
      ensures Step(View(), r) == EngineState.EraseEdges(old(View()), entity)
      ensures Valid()
    {
      hide Sound;
      EraseEdgesKeeps(ruleset, View(), entity);
      var erased := store.EraseEdges(entity);
      if erased.Err? {
        return Err(OnWrite(erased.error));
      }
      store := erased.value.0;
      return Ok(erased.value.1);
    }

    method Relate(triple: Triple, valid: Interval, prov: Provenance) returns (r: Result<(), EngineError>)
      requires Valid()
      modifies this
      ensures Step(View(), r) == EngineState.Relate(old(View()), triple, valid, prov)
      ensures Valid()
    {
      r := PushEdge(triple, EdgeVersion(true, valid, prov));
    }

    method Unrelate(triple: Triple, at: Timestamp, prov: Provenance) returns (r: Result<(), EngineError>)
      requires Valid()
      modifies this
      ensures Step(View(), r) == EngineState.Unrelate(old(View()), triple, at, prov)
      ensures Valid()
    {
      r := PushEdge(triple, EdgeVersion(false, Since(at), prov));
    }

    method PushEdge(triple: Triple, version: EdgeVersion) returns (r: Result<(), EngineError>)
      requires Valid()
      modifies this
      ensures Step(View(), r) == EngineState.PushEdge(old(View()), triple, version)
      ensures Valid()
    {
      hide Sound;
      PushEdgeKeeps(ruleset, View(), triple, version);
      var pushed := store.PushEdge(triple, version);
      if pushed.Err? {
        return Err(OnWrite(pushed.error));
      }
      store := pushed.value;
      return Ok(());
    }

    /** Leaves the slot no assertion and no vector; its log stays. */
    method DropVectors(entity: StableId, attribute: string)
      modifies this`index, this`assertions
      ensures View() == EngineState.DropVectors(old(View()), entity, attribute)
    {
      var doomed := set id | id in assertions && InSlot(assertions[id], entity, attribute);
      assert index.rows - {} == index.rows && assertions - {} == assertions;
      var todo := doomed;
      while todo != {}
        invariant todo <= doomed
        invariant index == old(index).(rows := old(index).rows - (doomed - todo))
        invariant assertions == old(assertions) - (doomed - todo)
        decreases |todo|
      {
        var id :| id in todo;
        index := index.Remove(id);
        assertions := assertions - {id};
        todo := todo - {id};
      }
    }

    // ----- rebuilding

    /** Swaps in an index built from the rows when they cover the assertions one for one; otherwise changes nothing. */
    method RebuildIndex(dim: nat, metric: Metric, rows: seq<Row>) returns (r: Result<(), EngineError>)
      requires Valid()
      modifies this
      ensures View() == RebuiltIndex(old(View()), dim, metric, rows)
      ensures r.Ok? <==> Rebuildable(old(View()), dim, metric, rows)
      ensures Valid()
    {
      ghost var s := View();
      RebuildKeeps(ruleset, s, dim, metric, rows);
      hide Sound, RowsAccepted, RowsOf, Rebuildable, VectorIndex.Check;
      var built := VectorIndex(dim, metric, map[]);
      for i := 0 to |rows|
        invariant View() == s
        invariant RowsAccepted(s, VectorIndex(dim, metric, map[]), rows[..i])
        invariant built == VectorIndex(dim, metric, RowsOf(rows[..i]))
      {
        OneMoreRow(s, dim, metric, rows, i);
        if rows[i].id !in assertions {
          return Err(CorruptSnapshot);
        }
        var inserted := built.Insert(rows[i].id, rows[i].vector);
        if inserted.Err? {
          return Err(IndexRefused(inserted.error));
        }
        built := inserted.value;
      }
      assert rows[..|rows|] == rows;
      AllRows(s, dim, metric, rows);
      if |built.rows| != |assertions| {
        return Err(CorruptSnapshot);
      }
      index := built;
      return Ok(());
    }

    /** Rebuild the blocking map from the identity records. */
    method RebuildBlocks()
      modifies this`blocks
      ensures blocks == RebuiltBlocks(ruleset, identity)
    {
      hide BlocksFrom, InOrder, Keyed;
      var order := InOrder(identity.Keys);
      blocks := map[];
      BlocksFromNothing(ruleset, identity);
      for i := 0 to |order|
        invariant forall id :: id in order[..i] ==> id in identity
        invariant blocks == BlocksFrom(ruleset, identity, order[..i])
      {
        BlocksFromOneMore(ruleset, identity, order, i);
        KeyEntity(order[i], identity[order[i]]);
      }
      assert order[..|order|] == order;
    }
  }
}
