/**
 Answering "yes, the same": what merging two entities moves, what it keeps, and what it may not
 change.
 */
module MergeLaws {
  import opened Core
  import opened Ordering
  import opened Store
  import opened Resolution
  import opened EngineState
  import opened EngineInvariant

  // ----- the version logs

  /** Each survivor log is its own versions then the absorbed entity's; nobody else's log moves. */
  lemma MergedHistories(store: MemoryStore, kept: StableId, absorbed: StableId)
    requires kept in store.entities && absorbed in store.entities && kept != absorbed
    ensures var store' := MergedStore(store, kept, absorbed);
      && store'.entities.Keys == store.entities.Keys && store'.nextId == store.nextId
      && (forall a :: store'.History(kept, a) ==
            store.History(kept, a) + WrittenAll(store.History(absorbed, a)))
      && (forall a :: store'.History(absorbed, a) == [])
      && (forall e, a :: e != kept && e != absorbed ==> store'.History(e, a) == store.History(e, a))
  {
    hide Repointed;
    var store' := MergedStore(store, kept, absorbed);
    forall a
      ensures store'.History(kept, a) == store.History(kept, a) + WrittenAll(store.History(absorbed, a))
    {
      assert WrittenAll([]) == [];
    }
  }

  lemma MergedTombstones(store: MemoryStore, kept: StableId, absorbed: StableId)
    requires kept in store.entities && absorbed in store.entities && kept != absorbed
    requires TombstonesCorrect(store)
    ensures TombstonesCorrect(MergedStore(store, kept, absorbed))
  {
    hide Repointed;
    var store' := MergedStore(store, kept, absorbed);
    forall e, a | e in store'.entities && a in store'.entities[e].attributes
      ensures LogCorrects(store'.entities[e].attributes[a])
    {
      if e == kept {
        var own, moved := store.History(kept, a), WrittenAll(store.History(absorbed, a));
        assert LogCorrects(own);
        assert LogCorrects(moved);
      } else {
        assert LogCorrects(store.entities[e].attributes[a]);
      }
    }
  }

  // ----- the edges

  lemma RepointedSound(edges: Edges, from: StableId, to: StableId, known: set<StableId>)
    requires from != to && to in known
    requires forall t :: t in edges ==>
      t.subject in known && t.object_ in known && t.subject != t.object_ && edges[t] != []
    ensures var edges' := Repointed(edges, from, to);
      forall t :: t in edges' ==>
        && t.subject in known && t.object_ in known && t.subject != t.object_
        && edges'[t] != [] && !t.Touches(from)
  {
    var edges' := Repointed(edges, from, to);
    forall t | t in edges'
      ensures t.subject in known && t.object_ in known && edges'[t] != [] && !t.Touches(from)
    {
      var e :| e in edges && Moved(e, from, to) == t;
      if e == t {
        assert EdgeLog(edges, t) != [];
      } else {
        assert ArrivingLog(edges, t, from, to) != [] by {
          if e.subject == from {
            assert t.(subject := from) == e;
          } else {
            assert t.(object_ := from) == e;
          }
        }
      }
    }
  }

  /** A merge discards no version of an edge it keeps, and drops only what became a self-edge. */
  lemma EdgesConserved(edges: Edges, from: StableId, to: StableId)
    requires from != to
    ensures var edges' := Repointed(edges, from, to);
      && (forall e :: e in edges ==>
            (Moved(e, from, to) in edges' <==> Moved(e, from, to).subject != Moved(e, from, to).object_))
      && (forall t :: t in edges' ==>
            multiset(edges'[t]) == multiset(EdgeLog(edges, t)) + multiset(ArrivingLog(edges, t, from, to)))
  {
  }

  function QualifiesAt(validT: Timestamp, txT: Timestamp, at: Timestamp): EdgeVersion -> bool {
    (v: EdgeVersion) => Qualifies(v, validT, txT) && v.IngestedAt() == at
  }

  lemma {:induction false} LastOfFilter<T(!new)>(keep: T -> bool, log: seq<T>, w: nat)
    requires w < |log| && keep(log[w])
    requires forall i :: w < i < |log| ==> !keep(log[i])
    ensures Filter(keep, log) != [] && Filter(keep, log)[|Filter(keep, log)| - 1] == log[w]
  {
    var before, after := log[..w], log[w + 1..];
    FilterAppend(keep, before, [log[w]] + after);
    FilterAppend(keep, [log[w]], after);
    FilterNone(keep, after);
    FilterAll(keep, [log[w]]);
    assert log == before + ([log[w]] + after);
  }

  /** Re-sorting a log by ingestion changes nothing about which version is in force. */
  lemma SortingKeepsInForce(log: seq<EdgeVersion>, validT: Timestamp, txT: Timestamp)
    ensures InForce(SortBy(EdgeKey, log), validT, txT) == InForce(log, validT, txT)
  {
    hide SortBy, LatestQualifying, Filter;
    var sorted := SortBy(EdgeKey, log);
    MultisetMembers(sorted, log);
    var w, v := LatestQualifying(log, validT, txT), LatestQualifying(sorted, validT, txT);
    if w.None? {
      forall i | 0 <= i < |sorted| ensures !Qualifies(sorted[i], validT, txT) {
        assert sorted[i] in log;
      }
    } else {
      assert log[w.value] in sorted;
      assert v.Some?;
      assert sorted[v.value] in log;
      var at := log[w.value].IngestedAt();
      assert sorted[v.value].IngestedAt() == at;
      var keep := QualifiesAt(validT, txT, at);
      LastOfFilter(keep, log, w.value);
      LastOfFilter(keep, sorted, v.value);
      SortIsStable(EdgeKey, keep, log);
    }
  }

  /** Asked what is in force, the absorbed log and the two logs in a row agree. */
  lemma AbsorbedEdgeInForce(held: seq<EdgeVersion>, arriving: seq<EdgeVersion>, validT: Timestamp, txT: Timestamp)
    ensures InForce(AbsorbLog(held, arriving), validT, txT) == InForce(held + arriving, validT, txT)
  {
    assert held + [] == held && [] + arriving == arriving;
    SortingKeepsInForce(held + arriving, validT, txT);
  }

  // ----- the assertions

  /** An adopted reference reads, in the merged store, what it read before as the store rewrites it. */
  lemma AdoptedReads(s: State, at: AssertionRef, kept: StableId, absorbed: StableId)
    requires kept in s.store.entities && absorbed in s.store.entities && kept != absorbed
    requires AssertionResolves(s, at)
    ensures var at' := Adopted(at, s.store, kept, absorbed);
      var log, log' := s.store.History(at.entity, at.attribute),
                       MergedStore(s.store, kept, absorbed).History(at'.entity, at'.attribute);
      && at'.entity != absorbed && at'.attribute == at.attribute
      && at'.version < |log'|
      && log'[at'.version] == if at.entity == absorbed then Written(log[at.version]) else log[at.version]
  {
    hide MergedStore;
    MergedHistories(s.store, kept, absorbed);
    if at.entity == absorbed {
      assert at.attribute in s.store.entities[absorbed].attributes;
    }
  }

  lemma AdoptedStaysInjective(s: State, x: AssertionRef, y: AssertionRef, kept: StableId, absorbed: StableId)
    requires kept in s.store.entities && absorbed in s.store.entities && kept != absorbed
    requires AssertionResolves(s, x) && AssertionResolves(s, y)
    requires Adopted(x, s.store, kept, absorbed) == Adopted(y, s.store, kept, absorbed)
    ensures x == y
  {
  }

  // ----- the questions and the answers

  lemma PairOfKnown(a: StableId, b: StableId)
    ensures PairOf(a, b).lower <= PairOf(a, b).higher
    ensures (PairOf(a, b).lower == a && PairOf(a, b).higher == b) ||
      (PairOf(a, b).lower == b && PairOf(a, b).higher == a)
  {
  }

  /** Open questions stay distinct ordered pairs, and none is lost but the settled and the repeated. */
  lemma MergedReviewsDistinct(review: map<ReviewId, PendingReview>, kept: StableId, absorbed: StableId)
    requires kept != absorbed
    ensures var review' := MergedReviews(review, kept, absorbed);
      && (ReviewsDistinct(review) ==> ReviewsDistinct(review'))
      && (forall q :: q in review' ==> q in review && review'[q].a != absorbed && review'[q].b != absorbed)
      && (forall q :: q in review' ==>
            PairOf(review'[q].a, review'[q].b) == RenamedPair(review[q], kept, absorbed))
  {
    var review' := MergedReviews(review, kept, absorbed);
    forall q | q in review' ensures
      && review'[q].a < review'[q].b
      && PairOf(review'[q].a, review'[q].b) == RenamedPair(review[q], kept, absorbed)
    {}
    forall q, r | q in review' && r in review' && review'[q].a == review'[r].a && review'[q].b == review'[r].b
      ensures q == r
    {
      assert RenamedPair(review[q], kept, absorbed) == RenamedPair(review[r], kept, absorbed);
    }
  }

  /** Every pair still worth asking about is asked, by the earliest question that reached it. */
  lemma {:induction false} MergedReviewsComplete(review: map<ReviewId, PendingReview>, kept: StableId,
                                                 absorbed: StableId, q: ReviewId)
    requires q in review && kept != absorbed
    requires var pair := RenamedPair(review[q], kept, absorbed); pair.lower != pair.higher
    ensures exists r ::
      && r in MergedReviews(review, kept, absorbed) && r <= q
      && RenamedPair(review[r], kept, absorbed) == RenamedPair(review[q], kept, absorbed)
    decreases q
  {
    if StillAsks(review, kept, absorbed, q) {
      assert q in MergedReviews(review, kept, absorbed);
    } else {
      var earlier :| earlier in review && earlier < q
        && RenamedPair(review[earlier], kept, absorbed) == RenamedPair(review[q], kept, absorbed);
      MergedReviewsComplete(review, kept, absorbed, earlier);
    }
  }

  /** The identities left, and the blocks they derive. */
  lemma MergedIdentityKeeps(rs: Ruleset, s: State, kept: StableId, absorbed: StableId)
    requires BlocksDerived(rs, s.identity, s.blocks)
    requires kept in s.identity && absorbed in s.identity && kept != absorbed
    ensures var s' := MergedIdentity(rs, s, kept, absorbed);
      && BlocksDerived(rs, s'.identity, s'.blocks)
      && s'.identity.Keys == s.identity.Keys - {absorbed}
      && s'.identity[kept] == Folded(s.identity[kept], s.identity[absorbed])
      && (forall id :: id in s'.identity && id != kept ==> s'.identity[id] == s.identity[id])
      && s' == s.(identity := s'.identity, blocks := s'.blocks)
  {
    UnkeyingKeepsDerived(rs, s.identity, s.blocks, absorbed);
    var struck := s.(identity := s.identity - {absorbed}, blocks := Unkeyed(s.blocks, absorbed));
    FoldKeepsDerived(rs, struck, kept, s.identity[absorbed]);
  }

  // ----- the whole merge

  ghost predicate Merges(s: State, review: ReviewId, kept: StableId, absorbed: StableId) {
    && review in s.review
    && PairOf(s.review[review].a, s.review[review].b) == Settled(kept, absorbed)
    && kept != absorbed
  }

  /** What confirm does, branch by branch. */
  lemma ConfirmIs(rs: Ruleset, s: State, id: ReviewId)
    ensures id !in s.review ==> Confirm(rs, s, id) == Step(s, Err(NoSuchReview(id)))
    ensures id in s.review ==>
      var pair := PairOf(s.review[id].a, s.review[id].b);
      var kept, absorbed := pair.lower, pair.higher;
      var rest := s.(review := s.review - {id});
      && (kept == absorbed ==> Confirm(rs, s, id) == Step(rest, Ok(kept)))
      && (kept != absorbed && absorbed in s.store.entities && kept in s.store.entities ==>
            Confirm(rs, s, id) == Step(MergedInto(rs, rest, kept, absorbed), Ok(kept)))
  {
    hide MergedInto;
  }

  lemma MergesKnown(rs: Ruleset, s: State, review: ReviewId, kept: StableId, absorbed: StableId)
    requires Sound(rs, s) && Merges(s, review, kept, absorbed)
    ensures kept < absorbed && kept in s.identity && absorbed in s.identity
    ensures kept in s.store.entities && absorbed in s.store.entities
    ensures BlocksDerived(rs, s.identity, s.blocks)
  {
    hide BlocksDerived;
    PairOfKnown(s.review[review].a, s.review[review].b);
  }

  lemma ConfirmShape(rs: Ruleset, s: State, review: ReviewId, kept: StableId, absorbed: StableId)
    requires Sound(rs, s) && Merges(s, review, kept, absorbed)
    ensures kept < absorbed && kept in s.identity && absorbed in s.identity
    ensures kept in s.store.entities && absorbed in s.store.entities
    ensures var c := Confirm(rs, s, review);
      && c.result == Ok(kept)
      && c.state.store == MergedStore(s.store, kept, absorbed)
      && c.state.index == s.index
      && c.state.assertions == (map id | id in s.assertions :: Adopted(s.assertions[id], s.store, kept, absorbed))
      && c.state.identity.Keys == s.identity.Keys - {absorbed}
      && c.state.identity[kept] == Folded(s.identity[kept], s.identity[absorbed])
      && (forall id :: id in c.state.identity && id != kept ==> c.state.identity[id] == s.identity[id])
      && BlocksDerived(rs, c.state.identity, c.state.blocks)
      && c.state.review == MergedReviews(s.review - {review}, kept, absorbed)
      && c.state.rejected == MergedRejections(s.rejected, kept, absorbed)
      && c.state.nextAssertion == s.nextAssertion && c.state.nextReview == s.nextReview
  {
    hide Sound, Confirm, BlocksDerived, MergedStore, MergedReviews, MergedRejections, Adopted, MergedIdentity;
    MergesKnown(rs, s, review, kept, absorbed);
    ConfirmIs(rs, s, review);
    var moved := s.(review := s.review - {review},
      store := MergedStore(s.store, kept, absorbed),
      assertions := map id | id in s.assertions :: Adopted(s.assertions[id], s.store, kept, absorbed));
    MergedIdentityKeeps(rs, moved, kept, absorbed);
  }

  /**
   After a merge every assertion there was still resolves, to the same version: value, interval,
   provenance and holder untouched, supersession as the store rewrites a tombstone's.
   */
  lemma ConfirmKeepsReadings(rs: Ruleset, s: State, review: ReviewId, kept: StableId, absorbed: StableId)
    requires Sound(rs, s) && Merges(s, review, kept, absorbed)
    ensures var s' := Confirm(rs, s, review).state;
      && s'.assertions.Keys == s.assertions.Keys
      && (forall id :: id in s.assertions ==> ReadsAsBefore(s, s', id, kept, absorbed))
      && (forall a :: s'.store.History(kept, a) ==
            s.store.History(kept, a) + WrittenAll(s.store.History(absorbed, a)))
      && (forall a :: s'.store.History(absorbed, a) == [])
      && (forall e, a :: e != kept && e != absorbed ==> s'.store.History(e, a) == s.store.History(e, a))
  {
    ConfirmShape(rs, s, review, kept, absorbed);
    hide Confirm, MergedStore, MergedReviews, MergedRejections, BlocksDerived, Adopted, MemoryStore.Sound,
      AssertionResolves, Resolve, MemoryStore.History;
    MergedHistories(s.store, kept, absorbed);
    var s' := Confirm(rs, s, review).state;
    forall id | id in s.assertions ensures ReadsAsBefore(s, s', id, kept, absorbed) {
      AdoptedAssertion(s, s', id, kept, absorbed);
    }
  }

  ghost predicate ReadsAsBefore(s: State, s': State, id: AssertionId, kept: StableId, absorbed: StableId)
    requires id in s.assertions
  {
    && id in s'.assertions
    && AssertionResolves(s', s'.assertions[id])
    && s'.assertions[id].attribute == s.assertions[id].attribute
    && s'.assertions[id].entity == Renamed(s.assertions[id].entity, absorbed, kept)
    && Resolve(s, id).Some?
    && Resolve(s', id) == Some(if s.assertions[id].entity == absorbed
                               then Written(Resolve(s, id).value) else Resolve(s, id).value)
  }

  lemma AdoptedAssertion(s: State, s': State, id: AssertionId, kept: StableId, absorbed: StableId)
    requires kept in s.identity && kept in s.store.entities && absorbed in s.store.entities && kept != absorbed
    requires id in s.assertions && AssertionResolves(s, s.assertions[id])
    requires s'.store == MergedStore(s.store, kept, absorbed)
    requires id in s'.assertions && s'.assertions[id] == Adopted(s.assertions[id], s.store, kept, absorbed)
    requires s'.identity.Keys == s.identity.Keys - {absorbed}
    ensures ReadsAsBefore(s, s', id, kept, absorbed)
  {
    hide MergedStore, Adopted;
    AdoptedReads(s, s.assertions[id], kept, absorbed);
    AdoptedOwner(s.assertions[id], s.store, kept, absorbed);
  }

  lemma AdoptedOwner(at: AssertionRef, store: MemoryStore, kept: StableId, absorbed: StableId)
    ensures Adopted(at, store, kept, absorbed).entity == Renamed(at.entity, absorbed, kept)
  {
  }

  lemma ConfirmSoundly(rs: Ruleset, s: State, review: ReviewId, kept: StableId, absorbed: StableId)
    requires Sound(rs, s) && Merges(s, review, kept, absorbed)
    ensures Sound(rs, Confirm(rs, s, review).state)
  {
    ConfirmShape(rs, s, review, kept, absorbed);
    ConfirmKeepsReadings(rs, s, review, kept, absorbed);
    MergedStoreSound(s.store, kept, absorbed);
    MergedHistories(s.store, kept, absorbed);
    MergedReviewsKnown(s, review, kept, absorbed);
    AllResolve(s, Confirm(rs, s, review).state, kept, absorbed);
    hide Confirm, BlocksDerived, MergedReviews, MergedRejections, Adopted, AssertionsResolve, MergedStore,
      MemoryStore.Sound, MemoryStore.History, Resolve, ReadsAsBefore;
  }

  lemma AllResolve(s: State, s': State, kept: StableId, absorbed: StableId)
    requires s'.assertions.Keys == s.assertions.Keys
    requires forall id :: id in s.assertions ==> ReadsAsBefore(s, s', id, kept, absorbed)
    ensures AssertionsResolve(s')
  {
    hide AssertionResolves, Resolve;
  }

  lemma MergedStoreSound(store: MemoryStore, kept: StableId, absorbed: StableId)
    requires kept in store.entities && absorbed in store.entities && kept != absorbed && store.Sound()
    ensures MergedStore(store, kept, absorbed).Sound()
  {
    hide Repointed;
    RepointedSound(store.edges, absorbed, kept, store.entities.Keys);
    assert MergedStore(store, kept, absorbed).entities.Keys == store.entities.Keys;
  }

  lemma MergedReviewsKnown(s: State, review: ReviewId, kept: StableId, absorbed: StableId)
    requires ReviewsKnown(s) && kept in s.identity && kept != absorbed
    ensures var review' := MergedReviews(s.review - {review}, kept, absorbed);
      forall q :: q in review' ==>
        && q in s.review
        && review'[q].a in s.identity.Keys - {absorbed} && review'[q].b in s.identity.Keys - {absorbed}
  {
  }

  lemma ConfirmFaithfully(rs: Ruleset, s: State, review: ReviewId, kept: StableId, absorbed: StableId)
    requires Sound(rs, s) && Faithful(s) && Merges(s, review, kept, absorbed)
    ensures Faithful(Confirm(rs, s, review).state)
  {
    ConfirmShape(rs, s, review, kept, absorbed);
    MergedTombstones(s.store, kept, absorbed);
    assert ReviewsDistinct(s.review - {review});
    MergedReviewsDistinct(s.review - {review}, kept, absorbed);
    var s' := Confirm(rs, s, review).state;
    AdoptedInjective(s, s', kept, absorbed);
    MergedRejectionsKnown(s, s', kept, absorbed);
    hide Confirm, MergedStore, MergedReviews, BlocksDerived, Adopted, MemoryStore.Sound, TombstonesCorrect,
      OneAssertionPerVersion, ReviewsDistinct, RejectionsKnown, AssertionsResolve, MergedRejections;
  }

  lemma AdoptedInjective(s: State, s': State, kept: StableId, absorbed: StableId)
    requires kept in s.store.entities && absorbed in s.store.entities && kept != absorbed
    requires AssertionsResolve(s) && OneAssertionPerVersion(s.assertions)
    requires s'.assertions == map id | id in s.assertions :: Adopted(s.assertions[id], s.store, kept, absorbed)
    ensures OneAssertionPerVersion(s'.assertions)
  {
    hide Adopted, AssertionResolves;
    forall x, y | x in s'.assertions && y in s'.assertions && s'.assertions[x] == s'.assertions[y]
      ensures x == y
    {
      assert AssertionResolves(s, s.assertions[x]) && AssertionResolves(s, s.assertions[y]);
      AdoptedStaysInjective(s, s.assertions[x], s.assertions[y], kept, absorbed);
    }
  }

  lemma MergedRejectionsKnown(s: State, s': State, kept: StableId, absorbed: StableId)
    requires RejectionsKnown(s) && kept in s.identity && kept != absorbed
    requires s'.rejected == MergedRejections(s.rejected, kept, absorbed)
    requires s'.identity.Keys == s.identity.Keys - {absorbed}
    ensures RejectionsKnown(s')
  {
  }

  lemma ConfirmKeeps(rs: Ruleset, s: State, review: ReviewId)
    requires Sound(rs, s)
    ensures var c := Confirm(rs, s, review);
      && Sound(rs, c.state) && (Faithful(s) ==> Faithful(c.state))
      && (c.result.Ok? <==> review in s.review)
      && (c.result.Err? ==> c.state == s)
  {
    if review in s.review {
      var pair := PairOf(s.review[review].a, s.review[review].b);
      PairOfKnown(s.review[review].a, s.review[review].b);
      if pair.lower == pair.higher {
        ClosingKeeps(rs, s, review);
      } else {
        ConfirmShape(rs, s, review, pair.lower, pair.higher);
        ConfirmSoundly(rs, s, review, pair.lower, pair.higher);
        hide Confirm, Sound;
        if Faithful(s) { ConfirmFaithfully(rs, s, review, pair.lower, pair.higher); }
      }
    }
  }

  lemma ClosingKeeps(rs: Ruleset, s: State, review: ReviewId)
    requires Sound(rs, s)
    ensures Sound(rs, s.(review := s.review - {review}))
    ensures Faithful(s) ==> Faithful(s.(review := s.review - {review}))
  {
    var s' := s.(review := s.review - {review});
    forall x | x in s'.assertions ensures AssertionResolves(s', s'.assertions[x]) {
      assert AssertionResolves(s, s.assertions[x]);
    }
  }

  /**
   When a merge leaves what was said untouched: every survivor log is exactly the old survivor's
   then the old absorbed entity's, if and only if every tombstone being moved already says it
   corrects.
   */
  lemma MergeIsExactConcatenation(rs: Ruleset, s: State, review: ReviewId, kept: StableId, absorbed: StableId)
    requires Sound(rs, s) && Merges(s, review, kept, absorbed)
    ensures (forall a :: Confirm(rs, s, review).state.store.History(kept, a) ==
               s.store.History(kept, a) + s.store.History(absorbed, a))
      <==> (forall a :: LogCorrects(s.store.History(absorbed, a)))
  {
    ConfirmKeepsReadings(rs, s, review, kept, absorbed);
    var s' := Confirm(rs, s, review).state;
    hide Confirm, Sound, MemoryStore.History, ReadsAsBefore;
    forall a
      ensures s'.store.History(kept, a) == s.store.History(kept, a) + s.store.History(absorbed, a)
        <==> LogCorrects(s.store.History(absorbed, a))
    {
      CopiedExactly(s.store.History(kept, a), s.store.History(absorbed, a));
    }
  }

  /** Re-appending a log as the store writes it changes nothing exactly when its tombstones correct. */
  lemma CopiedExactly(own: seq<Version>, log: seq<Version>)
    ensures own + WrittenAll(log) == own + log <==> LogCorrects(log)
  {
    if own + WrittenAll(log) == own + log {
      forall i | 0 <= i < |log| ensures Written(log[i]) == log[i] {
        assert (own + WrittenAll(log))[|own| + i] == (own + log)[|own| + i];
      }
    }
    if LogCorrects(log) { assert WrittenAll(log) == log; }
  }

  /** In a state the engine itself produced, nothing a merge moves changes at all. */
  lemma FaithfulMergeKeepsEverything(rs: Ruleset, s: State, review: ReviewId, kept: StableId, absorbed: StableId)
    requires Sound(rs, s) && Faithful(s) && Merges(s, review, kept, absorbed)
    ensures var s' := Confirm(rs, s, review).state;
      && (forall a :: s'.store.History(kept, a) == s.store.History(kept, a) + s.store.History(absorbed, a))
      && s'.assertions.Keys == s.assertions.Keys
      && (forall id :: id in s.assertions ==> Resolve(s, id).Some? && Resolve(s', id) == Resolve(s, id))
  {
    ConfirmKeepsReadings(rs, s, review, kept, absorbed);
    MergeIsExactConcatenation(rs, s, review, kept, absorbed);
    forall a ensures LogCorrects(s.store.History(absorbed, a)) {
      if absorbed in s.store.entities && a in s.store.entities[absorbed].attributes {
        assert LogCorrects(s.store.entities[absorbed].attributes[a]);
      }
    }
    hide Confirm, BlocksDerived, MemoryStore.Sound, MemoryStore.History, TombstonesCorrect, OneAssertionPerVersion;
    assert forall id :: id in s.assertions ==> ReadsAsBefore(s, Confirm(rs, s, review).state, id, kept, absorbed);
    forall id | id in s.assertions && s.assertions[id].entity == absorbed
      ensures Written(Resolve(s, id).value) == Resolve(s, id).value
    {
      assert AssertionResolves(s, s.assertions[id]);
      assert LogCorrects(s.store.History(absorbed, s.assertions[id].attribute));
    }
  }
}
