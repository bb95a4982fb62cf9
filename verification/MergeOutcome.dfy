/**
 What a confirmed question leaves, told in terms of what was there before it: who survives and what
 is known of them, which questions and answers stand, and which edges are in force.
 */
module MergeOutcome {
  import opened Core
  import opened Store
  import opened Resolution
  import opened EngineState
  import opened EngineInvariant
  import opened MergeLaws
  import opened IdentityLaws

  /** Who an id names once the absorbed entity is the kept one. */
  function Now(id: StableId, kept: StableId, absorbed: StableId): StableId {
    if id == absorbed then kept else id
  }

  /** Two ids, in whichever order. */
  predicate About(a: StableId, b: StableId, x: StableId, y: StableId) {
    (a == x && b == y) || (a == y && b == x)
  }

  /** A question that two entities are one, as it stands before it is answered. */
  predicate IsOpen(s: State, review: ReviewId, kept: StableId, absorbed: StableId) {
    review in s.review && kept < absorbed && About(kept, absorbed, s.review[review].a, s.review[review].b)
  }

  lemma OpenMerges(s: State, review: ReviewId, kept: StableId, absorbed: StableId)
    requires IsOpen(s, review, kept, absorbed)
    ensures Merges(s, review, kept, absorbed)
  {
  }

  // ----- who survives

  /** The older of the two survives, its record has taken the other's in, and no one else's record moves. */
  lemma MergeLearns(rs: Ruleset, s: State, review: ReviewId, kept: StableId, absorbed: StableId)
    requires Sound(rs, s) && IsOpen(s, review, kept, absorbed)
    ensures kept in s.identity && absorbed in s.identity
    ensures var r := Confirm(rs, s, review);
      && r.result == Ok(kept)
      && Learned(s.identity - {absorbed}, r.state.identity, kept, s.identity[absorbed])
      && SameKinds(s.store, r.state.store)
  {
    OpenMerges(s, review, kept, absorbed);
    hide IsOpen;
    ConfirmShape(rs, s, review, kept, absorbed);
    hide Sound, Confirm, BlocksDerived, MergedReviews, MergedRejections, Adopted, MergedStore, SameKinds, Learned;
    KindsStand(s.store, kept, absorbed);
    FoldedLearns(s.identity - {absorbed}, Confirm(rs, s, review).state.identity, kept, s.identity[absorbed]);
  }

  /** And it is found by whatever found it before. */
  lemma MergedIsFound(rs: Ruleset, s: State, review: ReviewId, kept: StableId, absorbed: StableId, later: Record)
    requires Sound(rs, s) && IsOpen(s, review, kept, absorbed) && Considered(rs, s.identity, later, kept)
    ensures kept in CandidateSet(rs, Confirm(rs, s, review).state, later)
  {
    MergeLearns(rs, s, review, kept, absorbed);
    ConfirmKeeps(rs, s, review);
    hide Sound, Confirm, Considered, CandidateSet, Learned;
    var s' := Confirm(rs, s, review).state;
    SoundDerives(rs, s');
    SameConsidered(rs, s.identity, absorbed, later, kept);
    StillConsidered(rs, s.identity - {absorbed}, s'.identity, s.identity[absorbed], later, kept);
    CandidatesAreConsidered(rs, s', later);
  }

  lemma SameConsidered(rs: Ruleset, identity: map<StableId, Record>, gone: StableId, later: Record, id: StableId)
    requires Considered(rs, identity, later, id) && id != gone
    ensures Considered(rs, identity - {gone}, later, id)
  {
  }

  lemma FoldedLearns(before: map<StableId, Record>, after: map<StableId, Record>, id: StableId, mention: Record)
    requires id in before && after.Keys == before.Keys && after[id] == Folded(before[id], mention)
    requires forall other :: other in before && other != id ==> after[other] == before[other]
    ensures Learned(before, after, id, mention)
  {
  }

  lemma KindsStand(store: MemoryStore, kept: StableId, absorbed: StableId)
    requires kept in store.entities && absorbed in store.entities && kept != absorbed
    ensures SameKinds(store, MergedStore(store, kept, absorbed))
  {
  }

  lemma StillConsidered(rs: Ruleset, before: map<StableId, Record>, after: map<StableId, Record>, mention: Record,
                        later: Record, id: StableId)
    requires Learned(before, after, id, mention) && Considered(rs, before, later, id)
    ensures Considered(rs, after, later, id)
  {
  }

  // ----- which questions and answers stand

  /** A question asks under the new names what another asked. */
  predicate AsksNow(now: PendingReview, was: PendingReview, kept: StableId, absorbed: StableId) {
    About(now.a, now.b, Now(was.a, kept, absorbed), Now(was.b, kept, absorbed))
  }

  /** What is left of some open questions once their entities have new names. */
  ghost predicate LeftOf(was: map<ReviewId, PendingReview>, left: map<ReviewId, PendingReview>, kept: StableId,
                         absorbed: StableId) {
    && (forall q :: q in left ==>
          && q in was && left[q].a < left[q].b && AsksNow(left[q], was[q], kept, absorbed)
          && left[q].id == was[q].id && left[q].score == was[q].score)
    && (forall p, q :: p in left && q in left && left[p].a == left[q].a && left[p].b == left[q].b ==> p == q)
    && (forall q :: q in was && Now(was[q].a, kept, absorbed) != Now(was[q].b, kept, absorbed) ==>
          exists p :: p in left && p <= q && AsksNow(left[p], was[q], kept, absorbed))
  }

  /**
   Of the questions left, each asks under the new names what it asked before, with its score. None
   asks of one entity twice, no two ask the same, and a question is dropped only where it asks nothing
   any more or an earlier one now asks it.
   */
  lemma MergeQuestions(rs: Ruleset, s: State, review: ReviewId, kept: StableId, absorbed: StableId)
    requires Sound(rs, s) && IsOpen(s, review, kept, absorbed)
    ensures LeftOf(s.review - {review}, Confirm(rs, s, review).state.review, kept, absorbed)
  {
    OpenMerges(s, review, kept, absorbed);
    ConfirmShape(rs, s, review, kept, absorbed);
    hide Sound, Confirm, MergedReviews, MergedRejections, Adopted, MergedStore, BlocksDerived, LeftOf;
    LeftAreMerged(s.review - {review}, kept, absorbed);
  }

  lemma LeftAreMerged(was: map<ReviewId, PendingReview>, kept: StableId, absorbed: StableId)
    requires kept != absorbed
    ensures LeftOf(was, MergedReviews(was, kept, absorbed), kept, absorbed)
  {
    var left := MergedReviews(was, kept, absorbed);
    forall q | q in left ensures
      && q in was && left[q].a < left[q].b && AsksNow(left[q], was[q], kept, absorbed)
      && left[q].id == was[q].id && left[q].score == was[q].score
    {}
    forall p, q | p in left && q in left && left[p].a == left[q].a && left[p].b == left[q].b ensures p == q {
      assert RenamedPair(was[p], kept, absorbed) == RenamedPair(was[q], kept, absorbed);
    }
    forall q | q in was && Now(was[q].a, kept, absorbed) != Now(was[q].b, kept, absorbed)
      ensures exists p :: p in left && p <= q && AsksNow(left[p], was[q], kept, absorbed)
    {
      MergedReviewsComplete(was, kept, absorbed, q);
      var p :| p in left && p <= q && RenamedPair(was[p], kept, absorbed) == RenamedPair(was[q], kept, absorbed);
      assert AsksNow(left[p], was[q], kept, absorbed);
    }
  }

  /** A pair that under the new names is another. */
  predicate AnswersNow(now: Settled, was: Settled, kept: StableId, absorbed: StableId) {
    About(now.lower, now.higher, Now(was.lower, kept, absorbed), Now(was.higher, kept, absorbed))
  }

  /** What is left of some answers once their entities have new names. */
  ghost predicate StandingAnswers(was: set<Settled>, answered: set<Settled>, kept: StableId, absorbed: StableId) {
    && (forall p :: p in was && Now(p.lower, kept, absorbed) != Now(p.higher, kept, absorbed) ==>
          exists p' :: p' in answered && AnswersNow(p', p, kept, absorbed))
    && (forall p' :: p' in answered ==>
          p'.lower < p'.higher && exists p :: p in was && AnswersNow(p', p, kept, absorbed))
  }

  /** Every answer still stands under the new names, but for one the merge made about a single entity. */
  lemma MergeAnswers(rs: Ruleset, s: State, review: ReviewId, kept: StableId, absorbed: StableId)
    requires Sound(rs, s) && IsOpen(s, review, kept, absorbed)
    ensures StandingAnswers(s.rejected, Confirm(rs, s, review).state.rejected, kept, absorbed)
  {
    OpenMerges(s, review, kept, absorbed);
    ConfirmShape(rs, s, review, kept, absorbed);
    hide Sound, Confirm, MergedReviews, MergedRejections, Adopted, MergedStore, BlocksDerived, StandingAnswers;
    AnswersAreMerged(s.rejected, kept, absorbed);
  }

  lemma AnswersAreMerged(was: set<Settled>, kept: StableId, absorbed: StableId)
    ensures StandingAnswers(was, MergedRejections(was, kept, absorbed), kept, absorbed)
  {
    var answered := MergedRejections(was, kept, absorbed);
    forall p | p in was && Now(p.lower, kept, absorbed) != Now(p.higher, kept, absorbed)
      ensures exists p' :: p' in answered && AnswersNow(p', p, kept, absorbed)
    {
      var p' := PairOf(Renamed(p.lower, absorbed, kept), Renamed(p.higher, absorbed, kept));
      assert p' in answered && AnswersNow(p', p, kept, absorbed);
    }
  }

  // ----- which edges are in force

  /** The edges that become one triple: its own, and the absorbed entity's of the same name. */
  function BothLogs(edges: Edges, t: Triple, kept: StableId, absorbed: StableId): seq<EdgeVersion> {
    EdgeLog(edges, t) +
    if t.subject == kept then EdgeLog(edges, Triple(absorbed, t.predicate_, t.object_))
    else if t.object_ == kept then EdgeLog(edges, Triple(t.subject, t.predicate_, absorbed))
    else []
  }

  predicate Names(t: Triple, id: StableId) {
    t.subject == id || t.object_ == id
  }

  /**
   The absorbed entity has no edge left and nobody one to itself; every other edge is in force exactly
   when its own history and the absorbed entity's, told as one, say so, at every instant on both clocks.
   */
  lemma MergeEdges(rs: Ruleset, s: State, review: ReviewId, kept: StableId, absorbed: StableId,
                   t: Triple, validT: Timestamp, txT: Timestamp)
    requires Sound(rs, s) && IsOpen(s, review, kept, absorbed)
    ensures var edges := Confirm(rs, s, review).state.store.edges;
      && (t in edges ==> !Names(t, absorbed) && t.subject != t.object_)
      && (!Names(t, absorbed) && t.subject != t.object_ ==>
            InForce(EdgeLog(edges, t), validT, txT) ==
            InForce(BothLogs(s.store.edges, t, kept, absorbed), validT, txT))
  {
    OpenMerges(s, review, kept, absorbed);
    ConfirmShape(rs, s, review, kept, absorbed);
    SoundStore(rs, s);
    hide Sound, Confirm, MergedReviews, MergedRejections, Adopted, BlocksDerived, InForce, AbsorbLog;
    RepointedSound(s.store.edges, absorbed, kept, s.store.entities.Keys);
    AbsorbedEdgeInForce(EdgeLog(s.store.edges, t), ArrivingLog(s.store.edges, t, absorbed, kept), validT, txT);
    if !Names(t, absorbed) && t.subject != t.object_ {
      NoEdgeMoves(s.store.edges, t, kept, absorbed);
    }
  }

  lemma SoundStore(rs: Ruleset, s: State)
    requires Sound(rs, s)
    ensures s.store.Sound()
  {
  }

  lemma NoEdgeMoves(edges: Edges, t: Triple, kept: StableId, absorbed: StableId)
    requires kept != absorbed && !Names(t, absorbed) && t.subject != t.object_
    ensures EdgeLog(Repointed(edges, absorbed, kept), t) ==
      if t in Repointed(edges, absorbed, kept)
      then AbsorbLog(EdgeLog(edges, t), ArrivingLog(edges, t, absorbed, kept)) else []
    ensures t !in Repointed(edges, absorbed, kept) ==> BothLogs(edges, t, kept, absorbed) == []
    ensures BothLogs(edges, t, kept, absorbed) == EdgeLog(edges, t) + ArrivingLog(edges, t, absorbed, kept)
  {
  }
}
