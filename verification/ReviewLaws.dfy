/**
 The questions an engine asks: which a mention opens, that the answer lists exactly those, and that
 a pair once told apart is never asked about again.
 */
module ReviewLaws {
  import opened Core
  import opened Ordering
  import opened Store
  import opened Resolution
  import opened EngineState
  import opened EngineInvariant
  import opened EngineLaws
  import opened IdentityLaws
  import opened IngestState

  // ----- rejecting

  /** Somebody answered "not the same" of two entities known by these two records, either way round. */
  ghost predicate ToldApart(s: State, x: Record, y: Record) {
    exists pair :: pair in s.rejected && IsAbout(s, pair, x, y)
  }

  predicate IsAbout(s: State, pair: Settled, x: Record, y: Record) {
    && pair.lower in s.identity && pair.higher in s.identity
    && ((s.identity[pair.lower] == x && s.identity[pair.higher] == y)
        || (s.identity[pair.lower] == y && s.identity[pair.higher] == x))
  }

  /** A rejection closes its question, tells its two records apart for good, and moves nothing else. */
  lemma RejectStands(rs: Ruleset, s: State, q: ReviewId)
    requires Sound(rs, s) && q in s.review
    ensures var r := Reject(s, q);
      var a, b := s.review[q].a, s.review[q].b;
      && r.result.Ok?
      && r.state == s.(review := s.review - {q}, rejected := r.state.rejected)
      && (forall x, y :: ToldApart(r.state, x, y) <==>
            || ToldApart(s, x, y)
            || (x == s.identity[a] && y == s.identity[b]) || (x == s.identity[b] && y == s.identity[a]))
      && (Faithful(s) ==> r.state.rejected == s.rejected + {Settled(a, b)})
  {
    hide BlocksDerived, MemoryStore.Sound, AssertionsResolve, TombstonesCorrect, OneAssertionPerVersion;
    var a, b := s.review[q].a, s.review[q].b;
    var s' := Reject(s, q).state;
    assert PairOf(a, b) in s'.rejected;
    forall x, y ensures ToldApart(s', x, y) <==>
      || ToldApart(s, x, y)
      || (x == s.identity[a] && y == s.identity[b]) || (x == s.identity[b] && y == s.identity[a])
    {
      if pair :| pair in s.rejected && IsAbout(s, pair, x, y) {
        assert pair in s'.rejected && IsAbout(s', pair, x, y);
      }
      assert IsAbout(s', PairOf(a, b), x, y) <==>
        (x == s.identity[a] && y == s.identity[b]) || (x == s.identity[b] && y == s.identity[a]);
    }
  }

  // ----- the questions a mention opens

  /** The questions in one state that were not in an earlier one, where none of those earlier moved. */
  ghost predicate Opens(s: State, s': State, asked: seq<ReviewId>) {
    && (forall q :: q in s.review ==> q in s'.review && s'.review[q] == s.review[q])
    && (forall q :: q in asked <==> q in s'.review && q !in s.review)
    && Ascending(asked)
    && (forall q :: q in asked ==> s.nextReview <= q < s'.nextReview)
    && s.nextReview <= s'.nextReview
  }

  function AskedIn(r: Remembered): seq<ReviewId> {
    if r.CreatedPendingReview? then r.review else []
  }

  /** Worth asking about: in doubt, and never told apart from what was mentioned. */
  ghost predicate WorthAsking(rs: Ruleset, s: State, s': State, mention: Record, other: StableId) {
    Doubtful(rs, s.identity, mention, other) && !ToldApart(s', mention, s.identity[other])
  }

  /** A question there was not before. */
  predicate Fresh(s: State, s': State, q: ReviewId) {
    q in s'.review && q !in s.review
  }

  /** One question about each entity worth asking about, and about no other. */
  ghost predicate AsksExactly(rs: Ruleset, s: State, s': State, mention: Record, id: StableId) {
    && (forall q: ReviewId :: Fresh(s, s', q) ==> IsAsked(rs, s, s', mention, id, q))
    && (forall other :: WorthAsking(rs, s, s', mention, other) ==>
          exists q :: Fresh(s, s', q) && s'.review[q].a == other)
    && (forall p, q :: Fresh(s, s', p) && Fresh(s, s', q) && s'.review[p].a == s'.review[q].a ==> p == q)
  }

  ghost predicate IsAsked(rs: Ruleset, s: State, s': State, mention: Record, id: StableId, q: ReviewId)
    requires q in s'.review
  {
    var asked := s'.review[q];
    && asked.id == q && asked.b == id && asked.a < id && asked.a in s.identity
    && WorthAsking(rs, s, s', mention, asked.a)
    && asked.score == rs.score(mention, s.identity[asked.a])
  }

  /**
   A mention of somebody known opens no question. A new one opens one about each entity in doubt that
   was not told apart from it, with the score that left the doubt; and the answer lists exactly those.
   */
  lemma RememberAsks(rs: Ruleset, s: State, obs: Observation)
    requires Sound(rs, s) && s.index.Check(obs.embedding).None?
    ensures var r := Remember(rs, s, obs);
      && r.result.Ok? && Opens(s, r.state, AskedIn(r.result.value))
      && r.state.rejected == s.rejected
      && (r.result.value.Merged? ==> r.state.review == s.review)
      && (r.result.value.CreatedPendingReview? ==> r.result.value.review != [])
      && (!r.result.value.Merged? ==> AsksExactly(rs, s, r.state, obs.mention, r.result.value.entity))
  {
    hide CreateEntity, BestMatch, VectorIndex.Check, Askable, Questions, Remember, Sound, AsksExactly, Opens;
    if BestMatch(rs, s, obs.mention).Some? {
      MatchAsksNothing(rs, s, obs);
    } else {
      FreshAsks(rs, s, obs);
      var (created, id) := CreateEntity(rs, s, obs);
      var others := Askable(rs, s, created, id, obs.mention);
      SoundDerives(rs, s);
      SoundBasics(rs, s);
      AskedAreWorthIt(rs, s, created, Remember(rs, s, obs).state, obs.mention, id, others);
      QuestionsOpen(rs, s, Remember(rs, s, obs).state, obs.mention, id, others);
    }
  }

  lemma MatchAsksNothing(rs: Ruleset, s: State, obs: Observation)
    requires Sound(rs, s) && s.index.Check(obs.embedding).None? && BestMatch(rs, s, obs.mention).Some?
    ensures var r := Remember(rs, s, obs);
      && r.result.Ok? && r.result.value.Merged?
      && r.state.review == s.review && r.state.rejected == s.rejected && r.state.nextReview == s.nextReview
      && Opens(s, r.state, [])
  {
    hide Write, FoldIdentity, BestMatch, VectorIndex.Check, Remember, Sound;
    var id := BestMatch(rs, s, obs.mention).value;
    MatchIsKnown(rs, s, obs.mention, id);
    MatchShape(rs, s, obs, id);
    WriteKeeps(rs, s, id, obs);
    FoldKeeps(rs, Write(s, id, obs).state, id, obs.mention);
  }

  /** What a mention of nobody known leaves of the records and the questions. */
  lemma FreshAsks(rs: Ruleset, s: State, obs: Observation)
    requires Sound(rs, s) && s.index.Check(obs.embedding).None? && BestMatch(rs, s, obs.mention).None?
    ensures var (created, id) := CreateEntity(rs, s, obs);
      var r, others := Remember(rs, s, obs), Askable(rs, s, created, id, obs.mention);
      && id !in s.identity && created.identity == s.identity[id := obs.mention] && created.rejected == s.rejected
      && r.result.Ok? && !r.result.value.Merged? && r.result.value.entity == id
      && AskedIn(r.result.value) == Numbers(s.nextReview, |others|)
      && (r.result.value.CreatedPendingReview? ==> others != [])
      && r.state.identity == created.identity && r.state.rejected == s.rejected
      && (forall x :: x in others ==> x in s.identity && x < id) && Ascending(others)
      && r.state.review == s.review + Questions(rs, s, id, obs.mention, others, s.nextReview)
      && r.state.nextReview == s.nextReview + |others|
  {
    hide Write, CreateEntity, BestMatch, VectorIndex.Check, Askable, Questions, Remember, Sound, Numbers;
    FreshShape(rs, s, obs);
    CreateKeeps(rs, s, obs);
    AskableShape(rs, s, obs);
    var (created, id) := CreateEntity(rs, s, obs);
    WriteKeeps(rs, created, id, obs);
    assert Numbers(s.nextReview, 0) == [];
  }

  lemma QuestionsOpen(rs: Ruleset, s: State, s': State, mention: Record, id: StableId, others: seq<StableId>)
    requires CountersAhead(s)
    requires forall x :: x in others ==> x in s.identity && x < id
    requires s'.review == s.review + Questions(rs, s, id, mention, others, s.nextReview)
    requires s'.nextReview == s.nextReview + |others|
    ensures Opens(s, s', Numbers(s.nextReview, |others|))
  {
    assert forall i :: 0 <= i < |others| ==> others[i] in others;
    QuestionsShape(rs, s, id, mention, others);
    hide Questions;
  }

  lemma AskedAreWorthIt(rs: Ruleset, s: State, created: State, s': State, mention: Record, id: StableId,
                        others: seq<StableId>)
    requires BlocksDerived(rs, s.identity, s.blocks) && CountersAhead(s) && id !in s.identity
    requires created.identity == s.identity[id := mention] && created.rejected == s.rejected
    requires s'.identity == created.identity && s'.rejected == s.rejected
    requires others == Askable(rs, s, created, id, mention) && Ascending(others)
    requires forall x :: x in others ==> x in s.identity && x < id
    requires s'.review == s.review + Questions(rs, s, id, mention, others, s.nextReview)
    ensures AsksExactly(rs, s, s', mention, id)
  {
    hide BlocksDerived, WorthAsking, Askable, Questions, AsksExactly;
    AskableIsWorthAsking(rs, s, created, s', mention, id);
    assert forall i :: 0 <= i < |others| ==> others[i] in others;
    QuestionsShape(rs, s, id, mention, others);
    QuestionsScore(rs, s, id, mention, others);
    OnesWorthAsking(rs, s, s', mention, id, others, Questions(rs, s, id, mention, others, s.nextReview));
  }

  lemma OnesWorthAsking(rs: Ruleset, s: State, s': State, mention: Record, id: StableId, others: seq<StableId>,
                        asked: map<ReviewId, PendingReview>)
    requires CountersAhead(s) && Ascending(others) && s'.review == s.review + asked
    requires forall x :: x in others ==> x in s.identity && x < id
    requires forall x :: x in others <==> WorthAsking(rs, s, s', mention, x)
    requires forall q :: q in asked <==> s.nextReview <= q < s.nextReview + |others|
    requires forall q :: q in asked ==>
      asked[q].id == q && asked[q].a == others[q - s.nextReview] && asked[q].b == id
      && asked[q].a in s.identity && asked[q].score == rs.score(mention, s.identity[asked[q].a])
    ensures AsksExactly(rs, s, s', mention, id)
  {
    hide WorthAsking;
    forall q: ReviewId | Fresh(s, s', q) ensures IsAsked(rs, s, s', mention, id, q) {
      assert others[q - s.nextReview] in others;
    }
    forall other | WorthAsking(rs, s, s', mention, other)
      ensures exists q :: Fresh(s, s', q) && s'.review[q].a == other
    {
      var i :| 0 <= i < |others| && others[i] == other;
      assert Fresh(s, s', s.nextReview + i) && s'.review[s.nextReview + i].a == other;
    }
  }

  lemma QuestionsScore(rs: Ruleset, s: State, id: StableId, mention: Record, others: seq<StableId>)
    requires forall x :: x in others ==> x in s.identity && x < id
    ensures var asked := Questions(rs, s, id, mention, others, s.nextReview);
      forall q :: q in asked ==>
        asked[q].a in s.identity && asked[q].score == rs.score(mention, s.identity[asked[q].a])
  {
  }

  lemma AskableIsWorthAsking(rs: Ruleset, s: State, created: State, s': State, mention: Record, id: StableId)
    requires BlocksDerived(rs, s.identity, s.blocks) && id !in s.identity
    requires created.identity == s.identity[id := mention] && created.rejected == s.rejected
    requires s'.identity == created.identity && s'.rejected == s.rejected
    ensures forall other :: other in Askable(rs, s, created, id, mention) <==> WorthAsking(rs, s, s', mention, other)
  {
    hide BlocksDerived, CandidateSet, Considered;
    forall other ensures other in Askable(rs, s, created, id, mention) <==> WorthAsking(rs, s, s', mention, other) {
      BandsAreThresholds(rs, s, mention, other);
      ConsideredIsKnown(rs, s, mention, other);
      if other in s.identity {
        hide Doubtful;
        AnsweredIsToldApart(created, s', id, other);
      }
    }
  }

  lemma AnsweredIsToldApart(created: State, s': State, a: StableId, b: StableId)
    requires s'.identity == created.identity && s'.rejected == created.rejected
    requires a in created.identity && b in created.identity
    ensures AlreadyRejected(created, a, b) <==> ToldApart(s', created.identity[a], created.identity[b])
  {
  }

  /** Once two records were told apart, no mention opens a question about two such records again. */
  lemma ToldApartStays(rs: Ruleset, s: State, review: ReviewId, obs: Observation, q: ReviewId)
    requires Sound(rs, s) && review in s.review && s.index.Check(obs.embedding).None?
    requires Fresh(Reject(s, review).state, Remember(rs, Reject(s, review).state, obs).state, q)
    ensures var r := Remember(rs, Reject(s, review).state, obs).state;
      var x, y := s.identity[s.review[review].a], s.identity[s.review[review].b];
      var a, b := r.review[q].a, r.review[q].b;
      && a in r.identity && b in r.identity
      && !(r.identity[a] == x && r.identity[b] == y) && !(r.identity[a] == y && r.identity[b] == x)
  {
    KnownQuestion(rs, s, review);
    hide Sound, Remember, VectorIndex.Check, Reject, ToldApart;
    var t := Reject(s, review).state;
    RejectKeeps(rs, s, review);
    RejectStands(rs, s, review);
    NeverAskedAgain(rs, t, obs, q);
    var r := Remember(rs, t, obs).state;
    var x, y := s.identity[s.review[review].a], s.identity[s.review[review].b];
    assert ToldApart(t, x, y) && ToldApart(t, y, x);
  }

  lemma KnownQuestion(rs: Ruleset, s: State, q: ReviewId)
    requires Sound(rs, s) && q in s.review
    ensures s.review[q].a in s.identity && s.review[q].b in s.identity
  {
  }

  /** No question a mention opens is about two records that were ever told apart, either way round. */
  lemma NeverAskedAgain(rs: Ruleset, s: State, obs: Observation, q: ReviewId)
    requires Sound(rs, s) && s.index.Check(obs.embedding).None? && Fresh(s, Remember(rs, s, obs).state, q)
    ensures var r := Remember(rs, s, obs).state;
      var a, b := r.review[q].a, r.review[q].b;
      && a in r.identity && b in r.identity
      && !ToldApart(s, r.identity[a], r.identity[b]) && !ToldApart(r, r.identity[a], r.identity[b])
  {
    hide Sound, Remember, VectorIndex.Check, Doubtful, ToldApart, Best, Matching, Opens;
    RememberAsks(rs, s, obs);
    RememberLearns(rs, s, obs);
    var r := Remember(rs, s, obs).state;
    var id := Remember(rs, s, obs).result.value.entity;
    var other := r.review[q].a;
    assert IsAsked(rs, s, r, obs.mention, id, q);
    assert r.identity[other] == s.identity[other];
    assert r.identity[id] == obs.mention by { NewIsMention(s.identity, r.identity, id, obs.mention); }
    ToldApartBothWays(r, obs.mention, s.identity[other]);
    ToldApartBothWays(s, obs.mention, s.identity[other]);
    StillToldApart(s, r, obs.mention, s.identity[other]);
  }

  lemma NewIsMention(before: map<StableId, Record>, after: map<StableId, Record>, id: StableId, mention: Record)
    requires Learned(before, after, id, mention) && id !in before
    ensures after[id] == mention
  {
  }

  lemma ToldApartBothWays(s: State, x: Record, y: Record)
    ensures ToldApart(s, x, y) <==> ToldApart(s, y, x)
  {
    forall pair ensures IsAbout(s, pair, x, y) <==> IsAbout(s, pair, y, x) {}
  }

  lemma StillToldApart(s: State, s': State, x: Record, y: Record)
    requires s'.rejected == s.rejected
    requires forall id :: id in s.identity ==> id in s'.identity && s'.identity[id] == s.identity[id]
    ensures ToldApart(s, x, y) ==> ToldApart(s', x, y)
  {
    if pair :| pair in s.rejected && IsAbout(s, pair, x, y) {
      assert IsAbout(s', pair, x, y);
    }
  }

  // ----- the questions a turn opens

  lemma OpensAcross(a: State, b: State, c: State, one: seq<ReviewId>, two: seq<ReviewId>)
    requires Opens(a, b, one) && Opens(b, c, two)
    ensures Opens(a, c, one + two)
  {
    assert forall i :: 0 <= i < |one| ==> one[i] in one;
    assert forall i :: 0 <= i < |two| ==> two[i] in two;
  }

  lemma {:induction false} MentionsAsk(rs: Ruleset, s: State, turn: Turn, x: Extraction, p: Prepared, n: nat)
    requires Sound(rs, s) && CountsMatch(x, p) && n <= |x.mentions|
    ensures var so := AfterMentions(rs, s, turn, x, p, n);
      Sound(rs, so.state) && (so.stopped.None? ==> Opens(s, so.state, so.out.reviews))
  {
    hide Sound, Remember, MentionObservation, AsksExactly, VectorIndex.Check, Opens;
    if n == 0 {
      NothingOpens(s);
    } else {
      MentionsAsk(rs, s, turn, x, p, n - 1);
      var so := AfterMentions(rs, s, turn, x, p, n - 1);
      if so.stopped.None? {
        var obs := MentionObservation(turn, x.mentions[n - 1], p.mentions[n - 1]);
        RememberKeeps(rs, so.state, obs);
        if so.state.index.Check(obs.embedding).None? {
          RememberAsks(rs, so.state, obs);
          var r := Remember(rs, so.state, obs);
          OpensAcross(s, so.state, r.state, so.out.reviews, AskedIn(r.result.value));
        }
      }
    }
  }

  lemma NothingOpens(s: State)
    ensures Opens(s, s, [])
  {
  }

  /** What the later loops of a turn leave of the questions and the records: everything. */
  ghost predicate SamePeople(a: Progress, b: Progress) {
    && b.state.review == a.state.review && b.state.nextReview == a.state.nextReview
    && b.out.reviews == a.out.reviews
    && b.state.identity == a.state.identity && b.out.entities == a.out.entities
    && SameKinds(a.state.store, b.state.store)
  }

  lemma {:induction false} FactsLeavePeople(turn: Turn, x: Extraction, p: Prepared, at: Progress, n: nat)
    requires CountsMatch(x, p) && n <= |x.facts| && ValidExtraction(x)
    requires at.stopped.None? ==> Placed(x, at.out)
    ensures SamePeople(at, AfterFacts(turn, x, p, at, n))
  {
    hide Write, FactObservation;
    if n > 0 {
      FactsLeavePeople(turn, x, p, at, n - 1);
      var so := AfterFacts(turn, x, p, at, n - 1);
      if so.stopped.None? {
        assert x.facts[n - 1] in x.facts;
        var f := x.facts[n - 1];
        var obs := FactObservation(turn, x.mentions[f.subject], f, p.facts[n - 1]);
        WriteLeavesPeople(so.state, so.out.entities[f.subject], obs);
        WriteKeepsKinds(so.state, so.out.entities[f.subject], obs);
      }
    }
  }

  lemma WriteLeavesPeople(s: State, entity: StableId, obs: Observation)
    ensures var w := Write(s, entity, obs).state;
      w.review == s.review && w.nextReview == s.nextReview && w.identity == s.identity
  {
  }

  lemma {:induction false} RelationsLeavePeople(turn: Turn, x: Extraction, at: Progress, n: nat)
    requires n <= |x.relations| && ValidExtraction(x)
    requires at.stopped.None? ==> Placed(x, at.out)
    ensures SamePeople(at, AfterRelations(turn, x, at, n))
  {
    if n > 0 { RelationsLeavePeople(turn, x, at, n - 1); }
  }

  lemma {:induction false} ClosingLeavesPeople(turn: Turn, c: Closure, subject: StableId, doomed: seq<StableId>,
                                              at: Progress, n: nat)
    requires n <= |doomed|
    ensures SamePeople(at, AfterClosing(turn, c, subject, doomed, at, n))
  {
    if n > 0 { ClosingLeavesPeople(turn, c, subject, doomed, at, n - 1); }
  }

  lemma {:induction false} ClosuresLeavePeople(turn: Turn, x: Extraction, entities: seq<StableId>, at: Progress, n: nat)
    requires n <= |x.closures| && ValidExtraction(x) && |entities| == |x.mentions|
    ensures SamePeople(at, AfterClosures(turn, x, entities, at, n))
  {
    hide AfterClosing, Doomed, Spared;
    if n > 0 {
      ClosuresLeavePeople(turn, x, entities, at, n - 1);
      var so := AfterClosures(turn, x, entities, at, n - 1);
      if so.stopped.None? {
        assert x.closures[n - 1] in x.closures;
        var c := x.closures[n - 1];
        var doomed := Doomed(so.state, Spared(x, entities, entities[c.subject], c.predicate_), entities[c.subject], c);
        ClosingLeavesPeople(turn, c, entities[c.subject], doomed, so, |doomed|);
      }
    }
  }

  /** A turn that finishes lists exactly the questions it opened, and disturbs none that was open. */
  lemma IngestAsks(rs: Ruleset, s: State, turn: Turn, x: Extraction, p: Prepared)
    requires Sound(rs, s)
    ensures var r := Ingest(rs, s, turn, x, p);
      r.result.Ok? ==> Opens(s, r.state, r.result.value.reviews)
  {
    hide Sound, Opens, FirstComplaint, ValidExtraction, AfterMentions, AfterFacts, AfterRelations, AfterClosures;
    NoComplaintIffValid(x);
    if ValidExtraction(x) && CountsMatch(x, p) {
      MentionsPlaced(rs, s, turn, x, p, |x.mentions|);
      var mentioned := AfterMentions(rs, s, turn, x, p, |x.mentions|);
      MentionsAsk(rs, s, turn, x, p, |x.mentions|);
      FactsLeavePeople(turn, x, p, mentioned, |x.facts|);
      var stated := AfterFacts(turn, x, p, mentioned, |x.facts|);
      RelationsLeavePeople(turn, x, stated, |x.relations|);
      var related := AfterRelations(turn, x, stated, |x.relations|);
      if related.stopped.None? {
        ClosuresLeavePeople(turn, x, related.out.entities, related, |x.closures|);
        var done := AfterClosures(turn, x, related.out.entities, related, |x.closures|);
        SameOpens(s, mentioned.state, done.state, mentioned.out.reviews);
      }
    }
  }

  lemma SameOpens(s: State, a: State, b: State, asked: seq<ReviewId>)
    requires b.review == a.review && b.nextReview == a.nextReview
    ensures Opens(s, a, asked) <==> Opens(s, b, asked)
  {
  }

  // ----- what a turn learns of those it mentions

  /** The records once a turn's first mentions are taken in, one after another, each where it was placed. */
  function KnownAfter(before: map<StableId, Record>, entities: seq<StableId>, mentions: seq<Mention>, n: nat)
    : map<StableId, Record>
    requires n <= |entities| && n <= |mentions|
  {
    if n == 0 then before
    else
      var known, id := KnownAfter(before, entities, mentions, n - 1), entities[n - 1];
      var said := map["name" := mentions[n - 1].name, "kind" := mentions[n - 1].kind];
      known[id := if id in known then said + known[id] else said]
  }

  lemma LearnedIsKnown(before: map<StableId, Record>, after: map<StableId, Record>, id: StableId, mention: Record)
    requires Learned(before, after, id, mention)
    ensures after == before[id := if id in before then mention + before[id] else mention]
  {
    assert after[id] == if id in before then mention + before[id] else mention;
  }

  lemma {:induction false} KnownPrefix(before: map<StableId, Record>, one: seq<StableId>, more: seq<StableId>,
                                       mentions: seq<Mention>, n: nat)
    requires n <= |one| && one <= more && n <= |mentions|
    ensures KnownAfter(before, one, mentions, n) == KnownAfter(before, more, mentions, n)
  {
    if n > 0 { KnownPrefix(before, one, more, mentions, n - 1); }
  }

  lemma {:induction false} MentionsLearn(rs: Ruleset, s: State, turn: Turn, x: Extraction, p: Prepared, n: nat)
    requires Sound(rs, s) && CountsMatch(x, p) && n <= |x.mentions|
    ensures var so := AfterMentions(rs, s, turn, x, p, n);
      && Sound(rs, so.state)
      && (so.stopped.None? ==>
            |so.out.entities| == n
            && so.state.identity == KnownAfter(s.identity, so.out.entities, x.mentions, n))
  {
    hide Sound, Remember, Learned, VectorIndex.Check, Best, Matching;
    if n > 0 {
      MentionsLearn(rs, s, turn, x, p, n - 1);
      var so := AfterMentions(rs, s, turn, x, p, n - 1);
      if so.stopped.None? {
        var obs := MentionObservation(turn, x.mentions[n - 1], p.mentions[n - 1]);
        RememberKeeps(rs, so.state, obs);
        if so.state.index.Check(obs.embedding).None? {
          RememberLearns(rs, so.state, obs);
          var now := AfterMentions(rs, s, turn, x, p, n);
          LearnedIsKnown(so.state.identity, now.state.identity, now.out.entities[n - 1], obs.mention);
          KnownPrefix(s.identity, so.out.entities, now.out.entities, x.mentions, n - 1);
        }
      }
    }
  }

  /** What was there keeps its kind and date; what is new has those of the mention that made it. */
  ghost predicate KindsAre(store: MemoryStore, store': MemoryStore, at: Timestamp, entities: seq<StableId>,
                           mentions: seq<Mention>) {
    && (forall e :: e in store.entities ==>
          e in store'.entities
          && store'.entities[e].kind == store.entities[e].kind
          && store'.entities[e].createdAt == store.entities[e].createdAt)
    && (forall e :: e in store'.entities && e !in store.entities ==>
          store'.entities[e].createdAt == at && MadeBy(entities, mentions, e, store'.entities[e].kind))
    && (forall e :: e in entities ==> e in store'.entities)
  }

  /** The first mention placed on an entity is of this kind. */
  predicate MadeBy(entities: seq<StableId>, mentions: seq<Mention>, e: StableId, kind: string) {
    exists i :: 0 <= i < |entities| && i < |mentions| && entities[i] == e && e !in entities[..i]
                && mentions[i].kind == kind
  }

  lemma OneMoreMade(store: MemoryStore, a: MemoryStore, b: MemoryStore, at: Timestamp, entities: seq<StableId>,
                    mentions: seq<Mention>, id: StableId)
    requires KindsAre(store, a, at, entities, mentions) && |entities| < |mentions|
    requires EntersStore(a, b, id, mentions[|entities|].kind, at)
    ensures KindsAre(store, b, at, entities + [id], mentions)
  {
    var more := entities + [id];
    forall e | e in b.entities && e !in store.entities ensures MadeBy(more, mentions, e, b.entities[e].kind) {
      if e in a.entities {
        var i :| 0 <= i < |entities| && i < |mentions| && entities[i] == e && e !in entities[..i]
          && mentions[i].kind == a.entities[e].kind;
        assert more[..i] == entities[..i];
      } else {
        assert more[..|entities|] == entities && more[|entities|] == e;
      }
    }
  }

  lemma {:induction false} MentionsMake(rs: Ruleset, s: State, turn: Turn, x: Extraction, p: Prepared, n: nat)
    requires Sound(rs, s) && CountsMatch(x, p) && n <= |x.mentions|
    ensures var so := AfterMentions(rs, s, turn, x, p, n);
      && Sound(rs, so.state)
      && (so.stopped.None? ==>
            |so.out.entities| == n
            && KindsAre(s.store, so.state.store, turn.observedAt, so.out.entities, x.mentions))
  {
    hide Sound, Remember, VectorIndex.Check, KindsAre, EntersStore;
    if n == 0 {
      SameKindsAre(s.store, turn.observedAt, x.mentions);
    } else {
      MentionsMake(rs, s, turn, x, p, n - 1);
      var so := AfterMentions(rs, s, turn, x, p, n - 1);
      if so.stopped.None? {
        var obs := MentionObservation(turn, x.mentions[n - 1], p.mentions[n - 1]);
        RememberKeeps(rs, so.state, obs);
        if so.state.index.Check(obs.embedding).None? {
          NewIsRecorded(rs, so.state, obs);
          var now := AfterMentions(rs, s, turn, x, p, n);
          OneMoreMade(s.store, so.state.store, now.state.store, turn.observedAt, so.out.entities, x.mentions,
                      now.out.entities[n - 1]);
        }
      }
    }
  }

  lemma SameKindsAre(store: MemoryStore, at: Timestamp, mentions: seq<Mention>)
    ensures KindsAre(store, store, at, [], mentions)
  {
  }

  lemma KindsStillAre(store: MemoryStore, a: MemoryStore, b: MemoryStore, at: Timestamp, entities: seq<StableId>,
                      mentions: seq<Mention>)
    requires KindsAre(store, a, at, entities, mentions) && SameKinds(a, b)
    ensures KindsAre(store, b, at, entities, mentions)
  {
  }

  /** A turn that finishes has learned each mention's name and kind of whoever it was placed on, and no more. */
  lemma IngestLearns(rs: Ruleset, s: State, turn: Turn, x: Extraction, p: Prepared)
    requires Sound(rs, s)
    ensures var r := Ingest(rs, s, turn, x, p);
      r.result.Ok? ==>
        && |r.result.value.entities| == |x.mentions|
        && r.state.identity == KnownAfter(s.identity, r.result.value.entities, x.mentions, |x.mentions|)
        && KindsAre(s.store, r.state.store, turn.observedAt, r.result.value.entities, x.mentions)
  {
    hide Sound, KnownAfter, KindsAre, SameKinds, FirstComplaint, ValidExtraction, AfterMentions, AfterFacts,
         AfterRelations, AfterClosures;
    NoComplaintIffValid(x);
    if ValidExtraction(x) && CountsMatch(x, p) {
      MentionsPlaced(rs, s, turn, x, p, |x.mentions|);
      var mentioned := AfterMentions(rs, s, turn, x, p, |x.mentions|);
      MentionsLearn(rs, s, turn, x, p, |x.mentions|);
      MentionsMake(rs, s, turn, x, p, |x.mentions|);
      FactsLeavePeople(turn, x, p, mentioned, |x.facts|);
      var stated := AfterFacts(turn, x, p, mentioned, |x.facts|);
      RelationsLeavePeople(turn, x, stated, |x.relations|);
      var related := AfterRelations(turn, x, stated, |x.relations|);
      if related.stopped.None? {
        ClosuresLeavePeople(turn, x, related.out.entities, related, |x.closures|);
        var done := AfterClosures(turn, x, related.out.entities, related, |x.closures|);
        var at, entities := turn.observedAt, mentioned.out.entities;
        KindsStillAre(s.store, mentioned.state.store, stated.state.store, at, entities, x.mentions);
        KindsStillAre(s.store, stated.state.store, related.state.store, at, entities, x.mentions);
        KindsStillAre(s.store, related.state.store, done.state.store, at, entities, x.mentions);
      }
    }
  }
}
