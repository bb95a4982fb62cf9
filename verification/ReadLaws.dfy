/**
 What reading promises across whole runs: what was known at an instant is never changed by what
 is heard later, and a surviving assertion's standing only climbs.
 */
module ReadLaws {
  import opened Core
  import opened Ordering
  import opened Survivorship
  import opened TimelineLaws
  import opened Store
  import opened Resolution
  import opened EngineState
  import opened EngineInvariant
  import opened EngineLaws
  import opened MergeLaws
  import opened IngestState
  import opened IngestLaws
  import opened Persist
  import opened Runs
  import opened Read

  // ----- logs only grow

  /** Everything past the first log was heard at `since` or later. */
  ghost predicate GrownLog(log: seq<Version>, log': seq<Version>, since: int) {
    && log <= log'
    && forall i :: |log| <= i < |log'| ==> since <= log'[i].IngestedAt()
  }

  ghost predicate Grown(s: State, s': State, since: int) {
    forall e, a :: GrownLog(s.store.History(e, a), s'.store.History(e, a), since)
  }

  /** No assertion is moved, and none is ever given an id already handed out. */
  ghost predicate Carried(s: State, s': State) {
    && s.nextAssertion <= s'.nextAssertion
    && forall id :: id in s'.assertions ==>
         (id in s.assertions && s'.assertions[id] == s.assertions[id]) || s.nextAssertion <= id
  }

  ghost predicate Grows(s: State, s': State, since: int) {
    Grown(s, s', since) && Carried(s, s')
  }

  lemma GrownAcross(a: State, b: State, c: State, since: int)
    requires Grown(a, b, since) && Grown(b, c, since)
    ensures Grown(a, c, since)
  {
    hide MemoryStore.History;
    forall e, x ensures GrownLog(a.store.History(e, x), c.store.History(e, x), since) {
      assert GrownLog(a.store.History(e, x), b.store.History(e, x), since);
      assert GrownLog(b.store.History(e, x), c.store.History(e, x), since);
    }
  }

  lemma GrowsAcross(a: State, b: State, c: State, since: int)
    requires Grows(a, b, since) && Grows(b, c, since)
    ensures Grows(a, c, since)
  {
    hide Grown;
    GrownAcross(a, b, c, since);
  }

  /** States with one store and one assertion map. */
  lemma SameStoreGrows(s: State, s': State, since: int)
    requires s'.store.entities == s.store.entities
    requires s'.assertions == s.assertions && s'.nextAssertion == s.nextAssertion
    ensures Grows(s, s', since)
  {
  }

  lemma WriteGrows(s: State, entity: StableId, obs: Observation, since: int)
    requires since <= obs.provenance.observedAt
    ensures Grows(s, Write(s, entity, obs).state, since)
  {
    if entity in s.store.entities {
      WriteShape(s, entity, obs);
      var w := Write(s, entity, obs).state;
      forall e, a ensures GrownLog(s.store.History(e, a), w.store.History(e, a), since) {
        AssertGrows(s.store, entity, obs.attribute, obs.AsVersion(), e, a);
      }
    }
  }

  lemma AssertGrows(store: MemoryStore, id: StableId, attribute: string, v: Version, e: StableId, a: string)
    requires id in store.entities
    ensures store.Assert(id, attribute, v).Ok?
    ensures store.Assert(id, attribute, v).value.History(e, a) ==
      store.History(e, a) + (if e == id && a == attribute then [Written(v)] else [])
  {
  }

  lemma CreateGrows(rs: Ruleset, s: State, obs: Observation, since: int)
    requires Sound(rs, s)
    ensures Grows(s, CreateEntity(rs, s, obs).0, since)
  {
    hide Sound, MemoryStore.History;
    CreateKeeps(rs, s, obs);
  }

  lemma FoldGrows(rs: Ruleset, s: State, entity: StableId, mention: Record, since: int)
    ensures Grows(s, FoldIdentity(rs, s, entity, mention), since)
  {
    SameStoreGrows(s, FoldIdentity(rs, s, entity, mention), since);
  }

  lemma RememberGrows(rs: Ruleset, s: State, obs: Observation, since: int)
    requires Sound(rs, s) && since <= obs.provenance.observedAt
    ensures Grows(s, Remember(rs, s, obs).state, since)
  {
    hide Sound, Grows, Write, FoldIdentity, CreateEntity, Askable, Questions, VectorIndex.Check, Remember, BestMatch;
    SameStoreGrows(s, s, since);
    if s.index.Check(obs.embedding).Some? {
      RememberRefused(rs, s, obs);
    } else if BestMatch(rs, s, obs.mention).Some? {
      MatchGrows(rs, s, obs, since);
    } else {
      FreshShape(rs, s, obs);
      var (created, entity) := CreateEntity(rs, s, obs);
      CreateGrows(rs, s, obs, since);
      WriteGrows(created, entity, obs, since);
      var w, r := Write(created, entity, obs).state, Remember(rs, s, obs).state;
      SameStoreGrows(w, r, since);
      GrowsAcross(s, created, w, since);
      GrowsAcross(s, w, r, since);
    }
  }

  lemma RememberRefused(rs: Ruleset, s: State, obs: Observation)
    requires s.index.Check(obs.embedding).Some?
    ensures Remember(rs, s, obs).state == s
  {
  }

  lemma MatchGrows(rs: Ruleset, s: State, obs: Observation, since: int)
    requires Sound(rs, s) && since <= obs.provenance.observedAt
    requires s.index.Check(obs.embedding).None? && BestMatch(rs, s, obs.mention).Some?
    ensures Grows(s, Remember(rs, s, obs).state, since)
  {
    hide Sound, Grows, Write, FoldIdentity, VectorIndex.Check, BestMatch;
    var entity := BestMatch(rs, s, obs.mention).value;
    var w := Write(s, entity, obs).state;
    WriteGrows(s, entity, obs, since);
    FoldGrows(rs, w, entity, obs.mention, since);
    GrowsAcross(s, w, FoldIdentity(rs, w, entity, obs.mention), since);
  }

  lemma RememberAsGrows(rs: Ruleset, s: State, entity: Option<StableId>, obs: Observation, since: int)
    requires Sound(rs, s) && since <= obs.provenance.observedAt
    ensures Grows(s, RememberAs(rs, s, entity, obs).state, since)
  {
    hide Sound, Grows, Write, FoldIdentity, CreateEntity, VectorIndex.Check;
    SameStoreGrows(s, s, since);
    if entity.Some? {
      var placed := FoldIdentity(rs, s, entity.value, obs.mention);
      FoldGrows(rs, s, entity.value, obs.mention, since);
      WriteGrows(placed, entity.value, obs, since);
      GrowsAcross(s, placed, Write(placed, entity.value, obs).state, since);
    } else {
      var (placed, id) := CreateEntity(rs, s, obs);
      CreateGrows(rs, s, obs, since);
      WriteGrows(placed, id, obs, since);
      GrowsAcross(s, placed, Write(placed, id, obs).state, since);
    }
  }

  lemma ForgetGrows(s: State, entity: StableId, attribute: string, at: Timestamp, prov: Provenance, since: int)
    requires since <= prov.observedAt
    ensures Grows(s, Forget(s, entity, attribute, at, prov).state, since)
  {
    var s' := Forget(s, entity, attribute, at, prov).state;
    if entity in s.store.entities {
      forall e, a ensures GrownLog(s.store.History(e, a), s'.store.History(e, a), since) {
        AssertGrows(s.store, entity, attribute, Tombstone(at, prov), e, a);
      }
    }
  }

  lemma EdgeGrows(s: State, t: Triple, v: EdgeVersion, since: int)
    ensures Grows(s, PushEdge(s, t, v).state, since)
  {
    SameStoreGrows(s, PushEdge(s, t, v).state, since);
  }

  // ----- a turn

  lemma {:induction false} MentionsGrow(rs: Ruleset, s: State, turn: Turn, x: Extraction, p: Prepared, n: nat,
                                        since: int)
    requires Sound(rs, s) && CountsMatch(x, p) && n <= |x.mentions| && since <= turn.observedAt
    ensures Grows(s, AfterMentions(rs, s, turn, x, p, n).state, since)
  {
    hide Sound, Grows, Remember;
    SameStoreGrows(s, s, since);
    if n > 0 {
      MentionsGrow(rs, s, turn, x, p, n - 1, since);
      MentionsKeep(rs, s, turn, x, p, n - 1);
      var so := AfterMentions(rs, s, turn, x, p, n - 1);
      if so.stopped.None? {
        var obs := MentionObservation(turn, x.mentions[n - 1], p.mentions[n - 1]);
        RememberGrows(rs, so.state, obs, since);
        GrowsAcross(s, so.state, Remember(rs, so.state, obs).state, since);
      }
    }
  }

  lemma {:induction false} FactsGrow(turn: Turn, x: Extraction, p: Prepared, at: Progress, n: nat, since: int)
    requires CountsMatch(x, p) && n <= |x.facts| && ValidExtraction(x) && since <= turn.observedAt
    requires at.stopped.None? ==> Placed(x, at.out)
    ensures Grows(at.state, AfterFacts(turn, x, p, at, n).state, since)
  {
    hide Grows, Write;
    SameStoreGrows(at.state, at.state, since);
    if n > 0 {
      FactsGrow(turn, x, p, at, n - 1, since);
      var so := AfterFacts(turn, x, p, at, n - 1);
      if so.stopped.None? {
        assert x.facts[n - 1] in x.facts;
        var f := x.facts[n - 1];
        var obs := FactObservation(turn, x.mentions[f.subject], f, p.facts[n - 1]);
        WriteGrows(so.state, so.out.entities[f.subject], obs, since);
        GrowsAcross(at.state, so.state, Write(so.state, so.out.entities[f.subject], obs).state, since);
      }
    }
  }

  lemma {:induction false} RelationsGrow(turn: Turn, x: Extraction, at: Progress, n: nat, since: int)
    requires n <= |x.relations| && ValidExtraction(x)
    requires at.stopped.None? ==> Placed(x, at.out)
    ensures Grows(at.state, AfterRelations(turn, x, at, n).state, since)
  {
    hide Grows, PushEdge;
    SameStoreGrows(at.state, at.state, since);
    if n > 0 {
      RelationsGrow(turn, x, at, n - 1, since);
      var so := AfterRelations(turn, x, at, n - 1);
      if so.stopped.None? {
        assert x.relations[n - 1] in x.relations;
        var r := x.relations[n - 1];
        var t, v := RelationTriple(x, so.out.entities, r), EdgeVersion(true, Since(r.validFrom), TurnProvenance(turn));
        EdgeGrows(so.state, t, v, since);
        GrowsAcross(at.state, so.state, PushEdge(so.state, t, v).state, since);
      }
    }
  }

  lemma {:induction false} ClosingGrows(turn: Turn, c: Closure, subject: StableId, doomed: seq<StableId>,
                                        at: Progress, n: nat, since: int)
    requires n <= |doomed|
    ensures Grows(at.state, AfterClosing(turn, c, subject, doomed, at, n).state, since)
  {
    hide Grows, PushEdge;
    SameStoreGrows(at.state, at.state, since);
    if n > 0 {
      ClosingGrows(turn, c, subject, doomed, at, n - 1, since);
      var so := AfterClosing(turn, c, subject, doomed, at, n - 1);
      var t, v := Triple(subject, c.predicate_, doomed[n - 1]), ClosingVersion(turn, c);
      EdgeGrows(so.state, t, v, since);
      GrowsAcross(at.state, so.state, PushEdge(so.state, t, v).state, since);
    }
  }

  lemma {:induction false} ClosuresGrow(turn: Turn, x: Extraction, entities: seq<StableId>, at: Progress, n: nat,
                                        since: int)
    requires n <= |x.closures| && ValidExtraction(x) && |entities| == |x.mentions|
    ensures Grows(at.state, AfterClosures(turn, x, entities, at, n).state, since)
  {
    hide Grows, AfterClosing, Doomed, Spared;
    SameStoreGrows(at.state, at.state, since);
    if n > 0 {
      ClosuresGrow(turn, x, entities, at, n - 1, since);
      var so := AfterClosures(turn, x, entities, at, n - 1);
      if so.stopped.None? {
        assert x.closures[n - 1] in x.closures;
        var c := x.closures[n - 1];
        var doomed := Doomed(so.state, Spared(x, entities, entities[c.subject], c.predicate_), entities[c.subject], c);
        ClosingGrows(turn, c, entities[c.subject], doomed, so, |doomed|, since);
        GrowsAcross(at.state, so.state,
                    AfterClosing(turn, c, entities[c.subject], doomed, so, |doomed|).state, since);
      }
    }
  }

  lemma IngestGrows(rs: Ruleset, s: State, turn: Turn, x: Extraction, p: Prepared, since: int)
    requires Sound(rs, s) && since <= turn.observedAt
    ensures Grows(s, Ingest(rs, s, turn, x, p).state, since)
  {
    hide Sound, Grows, FirstComplaint;
    SameStoreGrows(s, s, since);
    NoComplaintIffValid(x);
    if ValidExtraction(x) && CountsMatch(x, p) {
      MentionsPlaced(rs, s, turn, x, p, |x.mentions|);
      MentionsGrow(rs, s, turn, x, p, |x.mentions|, since);
      var mentioned := AfterMentions(rs, s, turn, x, p, |x.mentions|);
      FactsGrow(turn, x, p, mentioned, |x.facts|, since);
      var stated := AfterFacts(turn, x, p, mentioned, |x.facts|);
      RelationsGrow(turn, x, stated, |x.relations|, since);
      var related := AfterRelations(turn, x, stated, |x.relations|);
      GrowsAcross(s, mentioned.state, stated.state, since);
      GrowsAcross(s, stated.state, related.state, since);
      if related.stopped.None? {
        ClosuresGrow(turn, x, related.out.entities, related, |x.closures|, since);
        GrowsAcross(s, related.state, AfterClosures(turn, x, related.out.entities, related, |x.closures|).state, since);
      }
    }
  }

  // ----- what was known stays known

  /** An operation that hears nothing before `since`. */
  predicate HearsFrom(op: Op, since: int) {
    match op
    case OpRemember(obs) => since <= obs.provenance.observedAt
    case OpRememberAs(_, obs) => since <= obs.provenance.observedAt
    case OpForget(_, _, _, prov) => since <= prov.observedAt
    case OpIngest(turn, _, _) => since <= turn.observedAt
    case _ => true
  }

  /** An operation that moves and destroys no version. */
  predicate Appends(op: Op) {
    !op.OpConfirm? && !op.OpErase?
  }

  lemma StepGrows(rs: Ruleset, s: State, op: Op, since: int)
    requires Sound(rs, s) && Appends(op) && HearsFrom(op, since)
    ensures Grows(s, Apply(rs, s, op).0, since)
  {
    hide Sound, Grows, Remember, RememberAs, Forget, PushEdge, Ingest, Reloaded, Acceptable;
    match op
    case OpRemember(obs) => RememberGrows(rs, s, obs, since);
    case OpRememberAs(entity, obs) => RememberAsGrows(rs, s, entity, obs, since);
    case OpForget(e, a, at, prov) => ForgetGrows(s, e, a, at, prov, since);
    case OpIngest(turn, x, p) => IngestGrows(rs, s, turn, x, p, since);
    case OpReject(review) => SameStoreGrows(s, Reject(s, review).state, since);
    case OpEraseEdges(e) => SameStoreGrows(s, EraseEdges(s, e).state, since);
    case OpEdge(t, v) => EdgeGrows(s, t, v, since);
    case OpRebuild(dim, metric, rows) => SameStoreGrows(s, RebuiltIndex(s, dim, metric, rows), since);
    case OpReload(supplied) =>
      ReloadKeeps(rs, s, supplied);
      SameStoreGrows(s, Reloaded(supplied, s), since);
  }

  lemma {:induction false} RunGrows(rs: Ruleset, s: State, ops: seq<Op>, since: int)
    requires Sound(rs, s) && forall op :: op in ops ==> Appends(op) && HearsFrom(op, since)
    ensures Grows(s, Run(rs, s, ops), since)
    decreases |ops|
  {
    hide Sound, Grows, Apply, Ruling, HearsFrom, Appends;
    SameStoreGrows(s, s, since);
    if ops != [] {
      var next := Apply(rs, s, ops[0]).0;
      StepGrows(rs, s, ops[0], since);
      StepKeeps(rs, s, ops[0]);
      assert forall op :: op in ops[1..] ==> op in ops;
      RunGrows(Ruling(rs, s, ops[0]), next, ops[1..], since);
      GrowsAcross(s, next, Run(rs, s, ops), since);
    }
  }

  /** An operation that does not erase this slot, nor answer a question about this entity with a merge. */
  predicate SparesSlot(s: State, op: Op, entity: StableId, attribute: string) {
    match op
    case OpErase(e, a) => !(e == entity && a == attribute)
    case OpConfirm(q) => q in s.review ==> s.review[q].a != entity && s.review[q].b != entity
    case _ => true
  }

  ghost predicate RunSpares(rs: Ruleset, s: State, ops: seq<Op>, entity: StableId, attribute: string)
    decreases |ops|
  {
    ops == [] ||
    (SparesSlot(s, ops[0], entity, attribute) &&
     RunSpares(Ruling(rs, s, ops[0]), Apply(rs, s, ops[0]).0, ops[1..], entity, attribute))
  }

  lemma SlotGrows(rs: Ruleset, s: State, op: Op, entity: StableId, attribute: string, since: int)
    requires Sound(rs, s) && HearsFrom(op, since) && SparesSlot(s, op, entity, attribute)
    ensures GrownLog(s.store.History(entity, attribute), Apply(rs, s, op).0.store.History(entity, attribute), since)
  {
    hide Sound, MemoryStore.History;
    if op.OpErase? {
      hide Erase;
      EraseShape(s, op.erased, op.erasedAttribute);
    } else if op.OpConfirm? {
      hide Confirm;
      ConfirmLeaves(rs, s, op.review, entity, attribute);
    } else {
      hide Apply;
      StepGrows(rs, s, op, since);
    }
  }

  /** A merge moves no log but those of the two entities it is about. */
  lemma ConfirmLeaves(rs: Ruleset, s: State, review: ReviewId, entity: StableId, attribute: string)
    requires Sound(rs, s)
    requires review in s.review ==> s.review[review].a != entity && s.review[review].b != entity
    ensures Confirm(rs, s, review).state.store.History(entity, attribute) == s.store.History(entity, attribute)
  {
    hide Confirm, MemoryStore.History;
    ConfirmIs(rs, s, review);
    if review in s.review {
      PairOfKnown(s.review[review].a, s.review[review].b);
      var pair := PairOf(s.review[review].a, s.review[review].b);
      if pair.lower != pair.higher {
        ConfirmKeepsReadings(rs, s, review, pair.lower, pair.higher);
      }
    }
  }

  lemma {:induction false} RunGrowsSlot(rs: Ruleset, s: State, ops: seq<Op>, entity: StableId, attribute: string,
                                        since: int)
    requires Sound(rs, s) && RunSpares(rs, s, ops, entity, attribute)
    requires forall op :: op in ops ==> HearsFrom(op, since)
    ensures GrownLog(s.store.History(entity, attribute), Run(rs, s, ops).store.History(entity, attribute), since)
    decreases |ops|
  {
    hide Sound, Apply, Ruling, HearsFrom, SparesSlot, MemoryStore.History;
    if ops != [] {
      var next := Apply(rs, s, ops[0]).0;
      SlotGrows(rs, s, ops[0], entity, attribute, since);
      StepKeeps(rs, s, ops[0]);
      assert forall op :: op in ops[1..] ==> op in ops;
      RunGrowsSlot(Ruling(rs, s, ops[0]), next, ops[1..], entity, attribute, since);
    }
  }

  /**
   The past is fixed: what was believed as of `txT` about a slot, by anyone, under any strategy, is
   unchanged by any run that hears only later things, neither erases that slot nor merges its entity.
   */
  lemma PastIsFixed(rs: Ruleset, s: State, ops: seq<Op>, entity: StableId, attribute: string,
                    strategy: Strategy, validT: Timestamp, txT: Timestamp, holder: Option<StableId>)
    requires Sound(rs, s) && RunSpares(rs, s, ops, entity, attribute)
    requires forall op :: op in ops ==> HearsFrom(op, txT + 1)
    ensures AboutLog(strategy, Run(rs, s, ops).store.History(entity, attribute), validT, txT, holder) ==
      AboutLog(strategy, s.store.History(entity, attribute), validT, txT, holder)
  {
    hide Sound, Run, RunSpares, AboutLog, HearsFrom, MemoryStore.History;
    RunGrowsSlot(rs, s, ops, entity, attribute, txT + 1);
    var log, log' := s.store.History(entity, attribute), Run(rs, s, ops).store.History(entity, attribute);
    var more := log'[|log|..];
    assert log' == log + more;
    forall v | v in more ensures v.IngestedAt() > txT {
      var i :| 0 <= i < |more| && more[i] == v;
      assert log'[|log| + i] == v;
    }
    AboutIgnoresInvisible(strategy, log, more, validT, txT, holder);
  }

  // ----- forgetting is not erasing

  lemma HeardOneMore(log: seq<Version>, v: Version, txT: Timestamp, holder: Option<StableId>)
    ensures Heard(log + [v], txT, holder) ==
      Heard(log, txT, holder) + (if VisibleTo(txT, holder)(v) then [CandidateOf(v)] else [])
  {
    FilterOneMore(VisibleTo(txT, holder), log, v);
    hide Filter;
    var kept := Filter(VisibleTo(txT, holder), log);
    assert kept + [] == kept;
    assert CandidatesOf(kept + [v]) == CandidatesOf(kept) + [CandidateOf(v)];
    assert Heard(log, txT, holder) + [] == Heard(log, txT, holder);
  }

  /** Asked about any instant before the forgetting takes hold, the store answers as it did. */
  lemma ForgettingLeavesThePast(rs: Ruleset, s: State, entity: StableId, attribute: string, at: Timestamp,
                                prov: Provenance, validT: Timestamp, txT: Timestamp, holder: Option<StableId>)
    requires Sound(rs, s) && entity in s.store.entities && validT < at
    ensures var s' := Forget(s, entity, attribute, at, prov).state;
      AnswerOfBelief(AboutLog(ValidInterval, s'.store.History(entity, attribute), validT, txT, holder)) ==
      AnswerOfBelief(AboutLog(ValidInterval, s.store.History(entity, attribute), validT, txT, holder))
  {
    ForgetSilences(rs, s, entity, attribute, at, prov);
    hide Sound, Forget, MemoryStore.History, AboutLog, AnswerOfBelief;
    LaterVersionIsSilent(s.store.History(entity, attribute), Tombstone(at, prov), validT, txT, holder);
  }

  lemma LaterVersionIsSilent(log: seq<Version>, v: Version, validT: Timestamp, txT: Timestamp, holder: Option<StableId>)
    requires validT < v.valid.from
    ensures AnswerOfBelief(AboutLog(ValidInterval, log + [v], validT, txT, holder)) ==
      AnswerOfBelief(AboutLog(ValidInterval, log, validT, txT, holder))
  {
    hide AboutLog, AnswerOfBelief, Meaning, Heard;
    HeardOneMore(log, v, txT, holder);
    AboutMeans(log, validT, txT, holder);
    AboutMeans(log + [v], validT, txT, holder);
    LaterClaimsAreSilent(Heard(log, txT, holder), if VisibleTo(txT, holder)(v) then [CandidateOf(v)] else [], validT);
  }

  /** The claims deciding an instant, where the forgetting does not outdate them, are all absences. */
  ghost predicate OnlyAbsenceStands(cs: seq<Candidate>, t: Timestamp, forgotten: Key) {
    forall c :: Governs(cs, c, t) && !Precedes(ClaimKey(c), forgotten) ==> c.value == Asserts(Held.Absent)
  }

  /**
   Asked about any instant from then on, it answers a positive absence exactly when every claim that
   decided that instant before, and that this one does not outdate, was an absence already.
   */
  lemma ForgettingAnswersAbsent(rs: Ruleset, s: State, entity: StableId, attribute: string, at: Timestamp,
                                prov: Provenance, validT: Timestamp, txT: Timestamp)
    requires Sound(rs, s) && entity in s.store.entities && at <= validT && prov.observedAt <= txT
    ensures var s' := Forget(s, entity, attribute, at, prov).state;
      AboutLog(ValidInterval, s'.store.History(entity, attribute), validT, txT, None) == Ok(BelievesAbsent) <==>
      OnlyAbsenceStands(Heard(s.store.History(entity, attribute), txT, None), validT, (at, prov.observedAt))
  {
    ForgetSilences(rs, s, entity, attribute, at, prov);
    hide Sound, Forget, MemoryStore.History, AboutLog, Heard, OnlyAbsenceStands;
    TombstoneAnswers(s.store.History(entity, attribute), at, prov, validT, txT);
  }

  lemma TombstoneAnswers(log: seq<Version>, at: Timestamp, prov: Provenance, validT: Timestamp, txT: Timestamp)
    requires at <= validT && prov.observedAt <= txT
    ensures AboutLog(ValidInterval, log + [Tombstone(at, prov)], validT, txT, None) == Ok(BelievesAbsent) <==>
      OnlyAbsenceStands(Heard(log, txT, None), validT, (at, prov.observedAt))
  {
    hide AboutLog, Meaning, Heard, OnlyAbsenceStands;
    var v := Tombstone(at, prov);
    HeardOneMore(log, v, txT, None);
    AboutMeans(log + [v], validT, txT, None);
    AbsenceDecides(Heard(log, txT, None), CandidateOf(v), validT);
  }

  /** Adding an absence makes the meaning one exactly when nothing as late claims otherwise. */
  lemma AbsenceDecides(cs: seq<Candidate>, last: Candidate, t: Timestamp)
    requires AllClaims(cs) && last.value == Asserts(Held.Absent) && last.valid.from <= t
    ensures AllClaims(cs + [last])
    ensures Meaning(cs + [last], t) == Holding(Held.Absent) <==> OnlyAbsenceStands(cs, t, ClaimKey(last))
  {
    hide Meaning;
    var all := cs + [last];
    GovernorsWith(cs, last, t);
    MeansAbsent(all, t);
    hide Governs;
    if exists c :: Governs(cs, c, t) && !Precedes(ClaimKey(c), ClaimKey(last)) {
      var c :| Governs(cs, c, t) && !Precedes(ClaimKey(c), ClaimKey(last));
      assert Governs(all, c, t);
    } else {
      assert Governs(all, last, t);
    }
  }

  /** Who decides once one more claim is heard: those it does not outdate, and it where none outdates it. */
  lemma GovernorsWith(cs: seq<Candidate>, last: Candidate, t: Timestamp)
    requires AllClaims(cs) && last.valid.from <= t
    ensures forall c :: Governs(cs, c, t) && !Precedes(ClaimKey(c), ClaimKey(last)) ==> Governs(cs + [last], c, t)
    ensures forall c :: Governs(cs + [last], c, t) ==>
      c == last || (Governs(cs, c, t) && !Precedes(ClaimKey(c), ClaimKey(last)))
    ensures (forall c :: Governs(cs, c, t) ==> Precedes(ClaimKey(c), ClaimKey(last))) ==> Governs(cs + [last], last, t)
  {
    var all := cs + [last];
    assert last in all;
    forall c | Governs(all, c, t) && c != last
      ensures Governs(cs, c, t) && !Precedes(ClaimKey(c), ClaimKey(last)) {}
    if forall c :: Governs(cs, c, t) ==> Precedes(ClaimKey(c), ClaimKey(last)) {
      forall d | d in cs && d.valid.from <= t ensures AtMost(ClaimKey(d), ClaimKey(last)) {
        var c := GovernorAbove(cs, d, t);
      }
    }
  }

  /** Some claim decides every instant by which one has begun, and none is later. */
  lemma {:induction false} GovernorAbove(cs: seq<Candidate>, d: Candidate, t: Timestamp) returns (c: Candidate)
    requires d in cs && d.valid.from <= t
    ensures Governs(cs, c, t) && AtMost(ClaimKey(d), ClaimKey(c))
    decreases |cs|
  {
    var first, rest := cs[0], cs[1..];
    assert cs == [first] + rest;
    if e :| e in rest && e.valid.from <= t {
      c := GovernorAbove(rest, e, t);
      if first.valid.from <= t && Precedes(ClaimKey(c), ClaimKey(first)) {
        c := first;
      }
    } else {
      c := first;
    }
  }

  lemma MeansAbsent(cs: seq<Candidate>, t: Timestamp)
    requires AllClaims(cs)
    ensures Meaning(cs, t) == Holding(Held.Absent) <==>
      (exists c :: Governs(cs, c, t)) && forall c :: Governs(cs, c, t) ==> c.value == Asserts(Held.Absent)
  {
    if Meaning(cs, t) == Holding(Held.Absent) {
      var c :| Governs(cs, c, t) && HeldOf(c) == Held.Absent;
    }
  }

  // ----- a standing only climbs

  /** The slot of a surviving assertion lost nothing, and the assertion still reads what it read. */
  ghost predicate SlotCarried(s: State, s': State, id: AssertionId)
    requires id in s.assertions && id in s'.assertions
  {
    var at, at' := s.assertions[id], s'.assertions[id];
    var log, log' := s.store.History(at.entity, at.attribute), s'.store.History(at'.entity, at'.attribute);
    && at.version < |log| && at'.version < |log'|
    && CarriedAs(log[at.version], log'[at'.version])
    && LogCarried(log, log')
  }

  ghost predicate SlotsCarried(s: State, s': State) {
    && s.nextAssertion <= s'.nextAssertion
    && (forall id :: id in s'.assertions ==> id in s.assertions || s.nextAssertion <= id)
    && (forall id :: id in s.assertions && id in s'.assertions ==> SlotCarried(s, s', id))
  }

  lemma SlotClimbs(s: State, s': State, id: AssertionId, horizon: Timestamp)
    requires id in s.assertions && id in s'.assertions && SlotCarried(s, s', id)
    ensures AssertionStanding(s, id, horizon).Some? && AssertionStanding(s', id, horizon).Some?
    ensures AssertionStanding(s, id, horizon).value.Rank() <= AssertionStanding(s', id, horizon).value.Rank()
  {
    hide MemoryStore.History, StandingOf;
    var at, at' := s.assertions[id], s'.assertions[id];
    CarryingClimbs(s.store.History(at.entity, at.attribute), s'.store.History(at'.entity, at'.attribute),
                   Resolve(s, id).value.IngestedAt(), horizon);
  }

  lemma PrefixIsCarried(log: seq<Version>, log': seq<Version>)
    requires log <= log'
    ensures LogCarried(log, log')
  {
    forall v | v in log ensures exists w :: w in log' && CarriedAs(v, w) {
      var i :| 0 <= i < |log| && log[i] == v;
      assert log'[i] in log';
    }
  }

  lemma GrowthCarries(rs: Ruleset, s: State, s': State, since: int)
    requires Sound(rs, s) && Grows(s, s', since)
    ensures SlotsCarried(s, s')
  {
    hide MemoryStore.History, LogCarried, BlocksDerived, MemoryStore.Sound;
    forall id | id in s.assertions && id in s'.assertions ensures SlotCarried(s, s', id) {
      var at := s.assertions[id];
      assert AssertionResolves(s, at);
      assert GrownLog(s.store.History(at.entity, at.attribute), s'.store.History(at.entity, at.attribute), since);
      PrefixIsCarried(s.store.History(at.entity, at.attribute), s'.store.History(at.entity, at.attribute));
    }
  }

  /** What an erasure leaves of every other slot: its log, and the assertions naming it. */
  lemma EraseShape(s: State, entity: StableId, attribute: string)
    ensures var s' := Erase(s, entity, attribute).state;
      && s'.nextAssertion == s.nextAssertion
      && (forall id :: id in s'.assertions ==> id in s.assertions && s'.assertions[id] == s.assertions[id])
      && (forall id :: id in s'.assertions && entity in s.store.entities ==>
            !InSlot(s.assertions[id], entity, attribute))
      && (forall e, a :: entity !in s.store.entities || !(e == entity && a == attribute) ==>
            s'.store.History(e, a) == s.store.History(e, a))
  {
  }

  lemma EraseCarries(rs: Ruleset, s: State, entity: StableId, attribute: string)
    requires Sound(rs, s)
    ensures SlotsCarried(s, Erase(s, entity, attribute).state)
  {
    hide Erase, MemoryStore.History, LogCarried, BlocksDerived, MemoryStore.Sound;
    EraseShape(s, entity, attribute);
    var s' := Erase(s, entity, attribute).state;
    forall id | id in s.assertions && id in s'.assertions ensures SlotCarried(s, s', id) {
      var at := s.assertions[id];
      assert AssertionResolves(s, at);
      PrefixIsCarried(s.store.History(at.entity, at.attribute), s.store.History(at.entity, at.attribute));
    }
  }

  lemma CopyIsCarried(own: seq<Version>, moved: seq<Version>)
    ensures LogCarried(own, own + WrittenAll(moved))
    ensures LogCarried(moved, own + WrittenAll(moved))
  {
    var log' := own + WrittenAll(moved);
    PrefixIsCarried(own, log');
    forall v | v in moved ensures exists w :: w in log' && CarriedAs(v, w) {
      var i :| 0 <= i < |moved| && moved[i] == v;
      assert log'[|own| + i] == Written(v);
      assert Written(v) in log';
    }
  }

  lemma MergeCarries(rs: Ruleset, s: State, review: ReviewId, kept: StableId, absorbed: StableId)
    requires Sound(rs, s) && Merges(s, review, kept, absorbed)
    ensures SlotsCarried(s, Confirm(rs, s, review).state)
  {
    hide Confirm, MemoryStore.History, LogCarried, BlocksDerived, MemoryStore.Sound, WrittenAll;
    ConfirmKeepsReadings(rs, s, review, kept, absorbed);
    ConfirmCounts(rs, s, review);
    var s' := Confirm(rs, s, review).state;
    forall id | id in s.assertions && id in s'.assertions ensures SlotCarried(s, s', id) {
      assert ReadsAsBefore(s, s', id, kept, absorbed);
      var at := s.assertions[id];
      CopyIsCarried(s.store.History(kept, at.attribute), s.store.History(absorbed, at.attribute));
      PrefixIsCarried(s.store.History(at.entity, at.attribute), s.store.History(at.entity, at.attribute));
    }
  }

  lemma ConfirmCounts(rs: Ruleset, s: State, review: ReviewId)
    ensures Confirm(rs, s, review).state.nextAssertion == s.nextAssertion
  {
    hide MergedStore, Adopted, MergedReviews, MergedRejections;
  }

  lemma ConfirmCarries(rs: Ruleset, s: State, review: ReviewId)
    requires Sound(rs, s)
    ensures SlotsCarried(s, Confirm(rs, s, review).state)
  {
    hide SlotsCarried, Sound;
    SameStoreGrows(s, s, 0);
    GrowthCarries(rs, s, s, 0);
    if review in s.review {
      PairOfKnown(s.review[review].a, s.review[review].b);
      var pair := PairOf(s.review[review].a, s.review[review].b);
      if pair.lower == pair.higher {
        SameStoreGrows(s, s.(review := s.review - {review}), 0);
        GrowthCarries(rs, s, s.(review := s.review - {review}), 0);
      } else {
        MergeCarries(rs, s, review, pair.lower, pair.higher);
      }
    }
  }

  lemma StepCarries(rs: Ruleset, s: State, op: Op)
    requires Sound(rs, s)
    ensures SlotsCarried(s, Apply(rs, s, op).0)
  {
    hide Sound, SlotsCarried, Grows, Remember, RememberAs, Forget, PushEdge, Ingest, Confirm, Erase, EraseEdges,
         RebuiltIndex, Reject;
    match op
    case OpConfirm(review) => ConfirmCarries(rs, s, review);
    case OpErase(e, a) => EraseCarries(rs, s, e, a);
    case _ =>
      StepGrows(rs, s, op, MIN_TIME);
      GrowthCarries(rs, s, Apply(rs, s, op).0, MIN_TIME);
  }

  /** An id not standing now, and already handed out, never stands again. */
  lemma {:induction false} NeverRevived(rs: Ruleset, s: State, ops: seq<Op>, id: AssertionId)
    requires Sound(rs, s) && id < s.nextAssertion && id !in s.assertions
    ensures id !in Run(rs, s, ops).assertions
    decreases |ops|
  {
    hide Sound, Apply, Ruling, SlotCarried;
    if ops != [] {
      StepCarries(rs, s, ops[0]);
      StepKeeps(rs, s, ops[0]);
      NeverRevived(Ruling(rs, s, ops[0]), Apply(rs, s, ops[0]).0, ops[1..], id);
    }
  }

  /**
   Across any run whatever, an assertion that survives it reads at least as superseded as before:
   Latest, Joined, Unsettled, Corrected, and never back.
   */
  lemma {:induction false} StandingOnlyClimbs(rs: Ruleset, s: State, ops: seq<Op>, id: AssertionId, horizon: Timestamp)
    requires Sound(rs, s) && id in s.assertions && id in Run(rs, s, ops).assertions
    ensures var before, after := AssertionStanding(s, id, horizon), AssertionStanding(Run(rs, s, ops), id, horizon);
      before.Some? && after.Some? && before.value.Rank() <= after.value.Rank()
    decreases |ops|
  {
    hide Sound, Apply, Ruling, SlotCarried, AssertionStanding;
    if ops == [] {
      SameStoreGrows(s, s, 0);
      GrowthCarries(rs, s, s, 0);
      SlotClimbs(s, s, id, horizon);
    } else {
      var next := Apply(rs, s, ops[0]).0;
      StepCarries(rs, s, ops[0]);
      StepKeeps(rs, s, ops[0]);
      IdsHandedOut(rs, s, id);
      if id !in next.assertions {
        NeverRevived(Ruling(rs, s, ops[0]), next, ops[1..], id);
      }
      SlotClimbs(s, next, id, horizon);
      StandingOnlyClimbs(Ruling(rs, s, ops[0]), next, ops[1..], id, horizon);
    }
  }

  lemma IdsHandedOut(rs: Ruleset, s: State, id: AssertionId)
    requires Sound(rs, s) && id in s.assertions
    ensures id < s.nextAssertion
  {
  }
}
