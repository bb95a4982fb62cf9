/**
 What a turn promises: when it succeeds, where each thing it wrote can be found, and that no
 closure undoes what the same turn asserted.
 */
module IngestLaws {
  import opened Core
  import opened Ordering
  import opened Store
  import opened Resolution
  import opened EngineState
  import opened EngineInvariant
  import opened EngineLaws
  import opened IngestState

  // ----- one write, seen from outside

  /** What stays put across a write: old readings, the edges, and what the index accepts. */
  ghost predicate Extends(s: State, s': State) {
    && s.identity.Keys <= s'.identity.Keys
    && s'.store.edges == s.store.edges
    && s'.index.dim == s.index.dim && s'.index.metric == s.index.metric
    && s.nextAssertion <= s'.nextAssertion
    && (forall id :: id in s.assertions ==>
          id in s'.assertions && s'.assertions[id] == s.assertions[id] && Resolve(s', id) == Resolve(s, id))
  }

  lemma ExtendsAcross(a: State, b: State, c: State)
    requires Extends(a, b) && Extends(b, c)
    ensures Extends(a, c)
  {
    hide Resolve;
  }

  lemma SameCheck(s: State, s': State, v: Vector)
    requires Extends(s, s')
    ensures s'.index.Check(v) == s.index.Check(v)
  {
  }

  /** The assertion `id` is about this entity and attribute, and reads this version. */
  ghost predicate Reads(s: State, id: AssertionId, entity: StableId, attribute: string, v: Version) {
    && id in s.assertions
    && s.assertions[id].entity == entity && s.assertions[id].attribute == attribute
    && Resolve(s, id) == Some(v)
  }

  lemma WriteExtends(rs: Ruleset, s: State, entity: StableId, obs: Observation)
    requires Sound(rs, s) && entity in s.identity && s.index.Check(obs.embedding).None?
    ensures var w := Write(s, entity, obs);
      && Sound(rs, w.state) && Extends(s, w.state)
      && w.result == Ok(s.nextAssertion) && w.state.nextAssertion == s.nextAssertion + 1
      && w.state.identity == s.identity
      && Reads(w.state, s.nextAssertion, entity, obs.attribute, Written(obs.AsVersion()))
  {
    WriteKeeps(rs, s, entity, obs);
    WriteAddsOne(rs, s, entity, obs);
    hide Sound, Write, Resolve, VectorIndex.Check;
  }

  /** States that differ in nothing an assertion is read through. */
  lemma SameReadings(s: State, s': State)
    requires s'.store.entities == s.store.entities && s'.assertions == s.assertions
    ensures forall id :: Resolve(s', id) == Resolve(s, id)
  {
  }

  lemma RememberExtends(rs: Ruleset, s: State, obs: Observation)
    requires Sound(rs, s) && s.index.Check(obs.embedding).None?
    ensures var r := Remember(rs, s, obs);
      && r.result.Ok? && Sound(rs, r.state) && Extends(s, r.state)
      && r.result.value.assertion == s.nextAssertion && r.state.nextAssertion == s.nextAssertion + 1
      && r.result.value.entity in r.state.identity
      && Reads(r.state, s.nextAssertion, r.result.value.entity, obs.attribute, Written(obs.AsVersion()))
  {
    RememberKeeps(rs, s, obs);
    match BestMatch(rs, s, obs.mention)
    case Some(entity) =>
      MatchedExtends(rs, s, entity, obs);
    case None =>
      CreatedExtends(rs, s, obs);
  }

  lemma MatchedExtends(rs: Ruleset, s: State, entity: StableId, obs: Observation)
    requires Sound(rs, s) && s.index.Check(obs.embedding).None? && BestMatch(rs, s, obs.mention) == Some(entity)
    ensures var r := Remember(rs, s, obs);
      && r.result == Ok(Merged(entity, s.nextAssertion)) && Extends(s, r.state)
      && r.state.nextAssertion == s.nextAssertion + 1 && entity in r.state.identity
      && Reads(r.state, s.nextAssertion, entity, obs.attribute, Written(obs.AsVersion()))
  {
    hide Sound, Write, FoldIdentity, Resolve, VectorIndex.Check, CandidateSet;
    WriteExtends(rs, s, entity, obs);
    var w := Write(s, entity, obs).state;
    FoldKeeps(rs, w, entity, obs.mention);
    SameReadings(w, FoldIdentity(rs, w, entity, obs.mention));
  }

  lemma CreatedExtends(rs: Ruleset, s: State, obs: Observation)
    requires Sound(rs, s) && s.index.Check(obs.embedding).None? && BestMatch(rs, s, obs.mention).None?
    ensures var r := Remember(rs, s, obs);
      && r.result.Ok? && Extends(s, r.state)
      && r.result.value.assertion == s.nextAssertion && r.state.nextAssertion == s.nextAssertion + 1
      && r.result.value.entity in r.state.identity
      && Reads(r.state, s.nextAssertion, r.result.value.entity, obs.attribute, Written(obs.AsVersion()))
  {
    hide Write, CreateEntity, VectorIndex.Check, BestMatch, Sound, Remember, Resolve;
    CreateKeeps(rs, s, obs);
    var (created, entity) := CreateEntity(rs, s, obs);
    CreatedReadings(s, created);
    WriteExtends(rs, created, entity, obs);
    var w := Write(created, entity, obs).state;
    ExtendsAcross(s, created, w);
    CreatedShape(rs, s, obs);
    SameReadings(w, Remember(rs, s, obs).state);
  }

  /** Questions are filed beside what was written, and touch nothing an assertion is read through. */
  lemma CreatedShape(rs: Ruleset, s: State, obs: Observation)
    requires Sound(rs, s) && s.index.Check(obs.embedding).None? && BestMatch(rs, s, obs.mention).None?
    ensures var (created, entity) := CreateEntity(rs, s, obs);
      var w, r := Write(created, entity, obs), Remember(rs, s, obs);
      && w.result.Ok? && r.result.Ok?
      && r.result.value.entity == entity && r.result.value.assertion == w.result.value
      && r.state == w.state.(review := r.state.review, nextReview := r.state.nextReview)
  {
    hide Write, CreateEntity, VectorIndex.Check, Askable, Questions, BestMatch, Sound;
    FreshEntityKeeps(rs, s, obs);
  }

  lemma CreatedReadings(s: State, created: State)
    requires created == s.(store := created.store, identity := created.identity, blocks := created.blocks)
    requires created.store.edges == s.store.edges && s.identity.Keys <= created.identity.Keys
    requires forall e, a :: created.store.History(e, a) == s.store.History(e, a)
    ensures Extends(s, created)
  {
    hide MemoryStore.History;
  }

  // ----- the mentions

  ghost predicate MentionsWritten(s: State, turn: Turn, x: Extraction, so: Progress, n: nat)
    requires n <= |x.mentions|
  {
    && so.stopped.None?
    && |so.out.entities| == n && so.out.closed == []
    && so.out.assertions == Numbers(s.nextAssertion, n)
    && so.state.nextAssertion == s.nextAssertion + n
    && Extends(s, so.state)
    && (forall i :: 0 <= i < n ==> so.out.entities[i] in so.state.identity)
    && (forall i :: 0 <= i < n ==> MentionReads(s, turn, x, so, i))
  }

  ghost predicate MentionReads(s: State, turn: Turn, x: Extraction, so: Progress, i: nat)
    requires i < |x.mentions| && i < |so.out.entities|
  {
    Reads(so.state, s.nextAssertion + i, so.out.entities[i], "kind",
          Version(Some(x.mentions[i].kind), Since(turn.observedAt), TurnProvenance(turn), Corrects, None))
  }

  lemma {:induction false} MentionsLand(rs: Ruleset, s: State, turn: Turn, x: Extraction, p: Prepared, n: nat)
    requires Sound(rs, s) && CountsMatch(x, p) && VectorsFit(s.index, p) && n <= |x.mentions|
    ensures var so := AfterMentions(rs, s, turn, x, p, n);
      Sound(rs, so.state) && MentionsWritten(s, turn, x, so, n)
  {
    if n > 0 {
      MentionsLand(rs, s, turn, x, p, n - 1);
      var so := AfterMentions(rs, s, turn, x, p, n - 1);
      assert p.mentions[n - 1] in p.mentions;
      OneMentionLands(rs, s, turn, x, so, p.mentions[n - 1], n);
    }
  }

  lemma OneMentionLands(rs: Ruleset, s: State, turn: Turn, x: Extraction, so: Progress, v: Vector, n: nat)
    requires 0 < n <= |x.mentions| && Sound(rs, so.state) && MentionsWritten(s, turn, x, so, n - 1)
    requires s.index.Check(v).None?
    ensures var r := Remember(rs, so.state, MentionObservation(turn, x.mentions[n - 1], v));
      && r.result.Ok? && Sound(rs, r.state)
      && MentionsWritten(s, turn, x, Progress(r.state, Recorded(so.out, r.result.value), None), n)
  {
    hide Remember, Sound, VectorIndex.Check, Resolve;
    SameCheck(s, so.state, v);
    var obs := MentionObservation(turn, x.mentions[n - 1], v);
    RememberExtends(rs, so.state, obs);
    var r := Remember(rs, so.state, obs);
    ExtendsAcross(s, so.state, r.state);
    var next := Progress(r.state, Recorded(so.out, r.result.value), None);
    forall i | 0 <= i < n ensures MentionReads(s, turn, x, next, i) {
      if i < n - 1 { assert MentionReads(s, turn, x, so, i); }
    }
  }

  // ----- the facts

  ghost predicate FactsWritten(turn: Turn, x: Extraction, from: Progress, so: Progress, n: nat)
    requires n <= |x.facts|
  {
    && so.stopped.None?
    && so.out == from.out.(assertions := from.out.assertions + Numbers(from.state.nextAssertion, n))
    && so.state.nextAssertion == from.state.nextAssertion + n
    && so.state.identity == from.state.identity
    && Extends(from.state, so.state)
    && (forall i :: 0 <= i < n ==> FactReads(turn, x, from, so.state, i))
  }

  ghost predicate FactReads(turn: Turn, x: Extraction, from: Progress, s: State, i: nat)
    requires i < |x.facts|
  {
    var f := x.facts[i];
    && f.subject < |from.out.entities|
    && Reads(s, from.state.nextAssertion + i, from.out.entities[f.subject], f.attribute,
             Written(Version(f.value, Since(f.validFrom), TurnProvenance(turn), f.supersession, None)))
  }

  lemma {:induction false} FactsLand(rs: Ruleset, turn: Turn, x: Extraction, p: Prepared, from: Progress, n: nat)
    requires CountsMatch(x, p) && n <= |x.facts| && ValidExtraction(x) && VectorsFit(from.state.index, p)
    requires from.stopped.None? && Placed(x, from.out) && Sound(rs, from.state)
    requires forall i :: 0 <= i < |from.out.entities| ==> from.out.entities[i] in from.state.identity
    ensures var so := AfterFacts(turn, x, p, from, n);
      Sound(rs, so.state) && FactsWritten(turn, x, from, so, n)
  {
    if n > 0 {
      FactsLand(rs, turn, x, p, from, n - 1);
      var so := AfterFacts(turn, x, p, from, n - 1);
      assert x.facts[n - 1] in x.facts;
      assert p.facts[n - 1] in p.facts;
      OneFactLands(rs, turn, x, from, so, p.facts[n - 1], n);
    }
  }

  lemma OneFactLands(rs: Ruleset, turn: Turn, x: Extraction, from: Progress, so: Progress, v: Vector, n: nat)
    requires 0 < n <= |x.facts| && x.facts[n - 1].subject < |x.mentions| && Placed(x, from.out)
    requires Sound(rs, so.state) && FactsWritten(turn, x, from, so, n - 1)
    requires from.state.index.Check(v).None?
    requires from.out.entities[x.facts[n - 1].subject] in from.state.identity
    ensures var f := x.facts[n - 1];
      var w := Write(so.state, so.out.entities[f.subject], FactObservation(turn, x.mentions[f.subject], f, v));
      && w.result == Ok(from.state.nextAssertion + n - 1) && Sound(rs, w.state)
      && FactsWritten(turn, x, from,
           Progress(w.state, so.out.(assertions := so.out.assertions + [from.state.nextAssertion + n - 1]), None), n)
  {
    hide Write, Sound, VectorIndex.Check, Resolve;
    SameCheck(from.state, so.state, v);
    var f := x.facts[n - 1];
    var obs := FactObservation(turn, x.mentions[f.subject], f, v);
    WriteExtends(rs, so.state, so.out.entities[f.subject], obs);
    var w := Write(so.state, so.out.entities[f.subject], obs).state;
    ExtendsAcross(from.state, so.state, w);
    forall i | 0 <= i < n ensures FactReads(turn, x, from, w, i) {
      if i < n - 1 { assert FactReads(turn, x, from, so.state, i); }
    }
  }

  // ----- the relations

  /** Only edges moved between these two. */
  ghost predicate OnlyEdges(s: State, s': State) {
    s' == s.(store := s.store.(edges := s'.store.edges))
  }

  lemma EdgeAppends(rs: Ruleset, s: State, t: Triple, v: EdgeVersion)
    requires Sound(rs, s) && t.subject in s.store.entities && t.object_ in s.store.entities
    ensures var w := PushEdge(s, t, v);
      && Sound(rs, w.state) && OnlyEdges(s, w.state)
      && (w.result.Ok? <==> t.subject != t.object_)
      && (w.result.Err? ==> w.state == s)
      && (w.result.Ok? ==> forall u ::
            EdgeLog(w.state.store.edges, u) == EdgeLog(s.store.edges, u) + (if u == t then [v] else []))
  {
    PushEdgeKeeps(rs, s, t, v);
  }

  /** A relation is about the entities its two mentions resolved to, subject to object. */
  predicate SaysEdge(r: Relation, entities: seq<StableId>, t: Triple)
    requires r.subject < |entities| && r.object_ < |entities|
  {
    entities[r.subject] == t.subject && r.predicate_ == t.predicate_ && entities[r.object_] == t.object_
  }

  /** The versions the first `n` relations append to one triple, in order. */
  function RelationLog(turn: Turn, x: Extraction, entities: seq<StableId>, t: Triple, n: nat): seq<EdgeVersion>
    requires n <= |x.relations|
    requires forall r :: r in x.relations ==> r.subject < |entities| && r.object_ < |entities|
  {
    if n == 0 then []
    else
      assert x.relations[n - 1] in x.relations;
      RelationLog(turn, x, entities, t, n - 1) +
      (if SaysEdge(x.relations[n - 1], entities, t)
       then [EdgeVersion(true, Since(x.relations[n - 1].validFrom),
                         Provenance(ToolOutput, turn.observedAt, turn.session))] else [])
  }

  /** Two mentions of one relation resolved to one entity. */
  predicate Collapses(entities: seq<StableId>, r: Relation)
    requires r.subject < |entities| && r.object_ < |entities|
  {
    entities[r.subject] == entities[r.object_]
  }

  ghost predicate Resolved(rs: Ruleset, x: Extraction, at: Progress) {
    && ValidExtraction(x) && Placed(x, at.out) && at.stopped.None? && Sound(rs, at.state)
    && (forall i :: 0 <= i < |at.out.entities| ==> at.out.entities[i] in at.state.identity)
  }

  lemma {:induction false} RelationsLand(rs: Ruleset, turn: Turn, x: Extraction, at: Progress, n: nat)
    requires Resolved(rs, x, at) && n <= |x.relations|
    ensures var so := AfterRelations(turn, x, at, n);
      && Sound(rs, so.state) && OnlyEdges(at.state, so.state)
      && (so.stopped.None? <==>
            forall i :: 0 <= i < n ==> x.relations[i] in x.relations && !Collapses(at.out.entities, x.relations[i]))
      && (so.stopped.None? ==> forall t ::
            EdgeLog(so.state.store.edges, t) ==
            EdgeLog(at.state.store.edges, t) + RelationLog(turn, x, at.out.entities, t, n))
  {
    hide BlocksDerived, PushEdge, MemoryStore.Sound;
    if n > 0 {
      RelationsLand(rs, turn, x, at, n - 1);
      var so := AfterRelations(turn, x, at, n - 1);
      assert x.relations[n - 1] in x.relations;
      if so.stopped.None? {
        var r := x.relations[n - 1];
        EdgeAppends(rs, so.state, RelationTriple(x, at.out.entities, r),
                    EdgeVersion(true, Since(r.validFrom), TurnProvenance(turn)));
      }
    }
  }

  // ----- the closures

  ghost predicate AssertedBy(x: Extraction, entities: seq<StableId>, t: Triple)
    requires forall r :: r in x.relations ==> r.subject < |entities| && r.object_ < |entities|
  {
    exists r :: r in x.relations && SaysEdge(r, entities, t)
  }

  /** Closing appends one tombstone to each doomed edge, and to nothing else. */
  ghost predicate ClosedSoFar(turn: Turn, c: Closure, subject: StableId, doomed: seq<StableId>,
                              at: Progress, so: Progress, n: nat)
    requires n <= |doomed|
  {
    && so.stopped.None? && OnlyEdges(at.state, so.state)
    && so.out == at.out.(closed := at.out.closed + ClosedEdges(c, subject, doomed[..n]))
    && (forall t :: EdgeLog(so.state.store.edges, t) == EdgeLog(at.state.store.edges, t) +
          (if t.subject == subject && t.predicate_ == c.predicate_ && t.object_ in doomed[..n]
           then [ClosingVersion(turn, c)] else []))
  }

  function ClosingVersion(turn: Turn, c: Closure): EdgeVersion {
    EdgeVersion(false, Since(c.at), InferredProvenance(turn))
  }

  function ClosedEdges(c: Closure, subject: StableId, doomed: seq<StableId>): (r: seq<Closed>)
    ensures |r| == |doomed|
    ensures forall i :: 0 <= i < |doomed| ==> r[i] == Closed(subject, c.predicate_, doomed[i], c.because)
  {
    seq(|doomed|, i requires 0 <= i < |doomed| => Closed(subject, c.predicate_, doomed[i], c.because))
  }

  lemma {:induction false} ClosingLands(rs: Ruleset, turn: Turn, c: Closure, subject: StableId,
                                        doomed: seq<StableId>, at: Progress, n: nat)
    requires Sound(rs, at.state) && at.stopped.None? && n <= |doomed| && Ascending(doomed)
    requires subject in at.state.store.entities
    requires forall i :: 0 <= i < |doomed| ==> doomed[i] in at.state.store.entities && doomed[i] != subject
    ensures var so := AfterClosing(turn, c, subject, doomed, at, n);
      Sound(rs, so.state) && ClosedSoFar(turn, c, subject, doomed, at, so, n)
  {
    hide Sound, PushEdge, EdgeLog;
    if n == 0 {
      assert ClosedEdges(c, subject, doomed[..0]) == [];
    } else {
      ClosingLands(rs, turn, c, subject, doomed, at, n - 1);
      OneEdgeCloses(rs, turn, c, subject, doomed, at, AfterClosing(turn, c, subject, doomed, at, n - 1), n);
    }
  }

  lemma OneEdgeCloses(rs: Ruleset, turn: Turn, c: Closure, subject: StableId, doomed: seq<StableId>,
                      at: Progress, so: Progress, n: nat)
    requires Sound(rs, so.state) && 0 < n <= |doomed| && Ascending(doomed)
    requires subject in at.state.store.entities && doomed[n - 1] in at.state.store.entities
    requires doomed[n - 1] != subject
    requires ClosedSoFar(turn, c, subject, doomed, at, so, n - 1)
    ensures var t := Triple(subject, c.predicate_, doomed[n - 1]);
      var w := Unrelate(so.state, t, c.at, InferredProvenance(turn));
      && w.result.Ok? && Sound(rs, w.state)
      && ClosedSoFar(turn, c, subject, doomed, at,
           Progress(w.state,
             so.out.(closed := so.out.closed + [Closed(subject, c.predicate_, doomed[n - 1], c.because)]), None), n)
  {
    hide Sound, PushEdge, EdgeLog;
    EdgeAppends(rs, so.state, Triple(subject, c.predicate_, doomed[n - 1]), ClosingVersion(turn, c));
    assert doomed[..n] == doomed[..n - 1] + [doomed[n - 1]];
    assert doomed[n - 1] !in doomed[..n - 1];
    assert ClosedEdges(c, subject, doomed[..n]) ==
      ClosedEdges(c, subject, doomed[..n - 1]) + [Closed(subject, c.predicate_, doomed[n - 1], c.because)];
  }

  lemma DoomedKnown(rs: Ruleset, s: State, spared: set<StableId>, subject: StableId, c: Closure)
    requires Sound(rs, s)
    ensures var doomed := Doomed(s, spared, subject, c);
      && Ascending(doomed)
      && (forall o :: o in doomed <==>
            o !in spared && InForce(EdgeLog(s.store.edges, Triple(subject, c.predicate_, o)), c.at, MAX_TIME))
      && (forall i :: 0 <= i < |doomed| ==>
            && doomed[i] in s.store.entities && doomed[i] != subject && doomed[i] !in spared
            && Triple(subject, c.predicate_, doomed[i]) in s.store.edges
            && InForce(EdgeLog(s.store.edges, Triple(subject, c.predicate_, doomed[i])), c.at, MAX_TIME))
  {
    hide InForce, BlocksDerived;
    var doomed := Doomed(s, spared, subject, c);
    DoomedExactly(s, spared, subject, c);
    forall i | 0 <= i < |doomed|
      ensures doomed[i] in s.store.entities && doomed[i] != subject && doomed[i] !in spared
      ensures Triple(subject, c.predicate_, doomed[i]) in s.store.edges
      ensures InForce(EdgeLog(s.store.edges, Triple(subject, c.predicate_, doomed[i])), c.at, MAX_TIME)
    {
      assert doomed[i] in doomed;
      var t :| t in s.store.edges && t.subject == subject && t.predicate_ == c.predicate_
        && InForce(s.store.edges[t], c.at, MAX_TIME) && t.object_ !in spared && t.object_ == doomed[i];
      assert t == Triple(subject, c.predicate_, doomed[i]);
    }
  }

  lemma DoomedExactly(s: State, spared: set<StableId>, subject: StableId, c: Closure)
    ensures forall o :: o in Doomed(s, spared, subject, c) <==>
      o !in spared && InForce(EdgeLog(s.store.edges, Triple(subject, c.predicate_, o)), c.at, MAX_TIME)
  {
    NothingInForce(c.at);
    hide InForce;
    forall o | o !in spared && InForce(EdgeLog(s.store.edges, Triple(subject, c.predicate_, o)), c.at, MAX_TIME)
      ensures o in Doomed(s, spared, subject, c)
    {
      assert Triple(subject, c.predicate_, o) in s.store.edges;
    }
  }

  lemma NothingInForce(at: Timestamp)
    ensures !InForce([], at, MAX_TIME)
  {
  }

  ghost predicate ClosuresSpare(x: Extraction, at: Progress, so: Progress)
    requires ValidExtraction(x) && Placed(x, at.out)
  {
    && so.stopped.None? && OnlyEdges(at.state, so.state)
    && so.out == at.out.(closed := so.out.closed)
    && at.out.closed <= so.out.closed
    && (forall i :: |at.out.closed| <= i < |so.out.closed| ==>
          !AssertedBy(x, at.out.entities, EdgeOf(so.out.closed[i])))
    && (forall t :: AssertedBy(x, at.out.entities, t) ==>
          EdgeLog(so.state.store.edges, t) == EdgeLog(at.state.store.edges, t))
  }

  function EdgeOf(c: Closed): Triple {
    Triple(c.subject, c.predicate_, c.object_)
  }

  lemma {:induction false} ClosuresLand(rs: Ruleset, turn: Turn, x: Extraction, at: Progress, n: nat)
    requires Resolved(rs, x, at) && n <= |x.closures|
    ensures var so := AfterClosures(turn, x, at.out.entities, at, n);
      Sound(rs, so.state) && ClosuresSpare(x, at, so)
  {
    hide Doomed, AfterClosing, Spared, Sound;
    if n > 0 {
      ClosuresLand(rs, turn, x, at, n - 1);
      var so := AfterClosures(turn, x, at.out.entities, at, n - 1);
      assert x.closures[n - 1] in x.closures;
      OneClosureLands(rs, turn, x, at, so, x.closures[n - 1]);
    }
  }

  lemma OneClosureLands(rs: Ruleset, turn: Turn, x: Extraction, at: Progress, so: Progress, c: Closure)
    requires Resolved(rs, x, at) && Sound(rs, so.state) && ClosuresSpare(x, at, so)
    requires c.subject < |x.mentions|
    ensures var subject := at.out.entities[c.subject];
      var doomed := Doomed(so.state, Spared(x, at.out.entities, subject, c.predicate_), subject, c);
      var done := AfterClosing(turn, c, subject, doomed, so, |doomed|);
      Sound(rs, done.state) && ClosuresSpare(x, at, done)
  {
    hide Doomed, AfterClosing, BlocksDerived, MemoryStore.Sound, InForce;
    var entities := at.out.entities;
    var subject := entities[c.subject];
    var spared := Spared(x, entities, subject, c.predicate_);
    var doomed := Doomed(so.state, spared, subject, c);
    DoomedKnown(rs, so.state, spared, subject, c);
    ClosingLands(rs, turn, c, subject, doomed, so, |doomed|);
    var done := AfterClosing(turn, c, subject, doomed, so, |doomed|);
    assert doomed[..|doomed|] == doomed;
    SparedIsAsserted(x, entities, subject, c.predicate_);
    forall i | |at.out.closed| <= i < |done.out.closed|
      ensures !AssertedBy(x, entities, EdgeOf(done.out.closed[i]))
    {
      if i >= |so.out.closed| {
        assert done.out.closed[i] == ClosedEdges(c, subject, doomed)[i - |so.out.closed|];
      } else {
        assert done.out.closed[i] == so.out.closed[i];
      }
    }
  }

  lemma SparedIsAsserted(x: Extraction, entities: seq<StableId>, subject: StableId, name: string)
    requires forall r :: r in x.relations ==> r.subject < |entities| && r.object_ < |entities|
    ensures forall o :: AssertedBy(x, entities, Triple(subject, name, o)) <==> o in Spared(x, entities, subject, name)
  {
    forall o ensures AssertedBy(x, entities, Triple(subject, name, o)) <==> o in Spared(x, entities, subject, name) {
      if AssertedBy(x, entities, Triple(subject, name, o)) {
        var r :| r in x.relations && SaysEdge(r, entities, Triple(subject, name, o));
      }
      if o in Spared(x, entities, subject, name) {
        var r :| r in x.relations && entities[r.subject] == subject && r.predicate_ == name && entities[r.object_] == o;
        assert SaysEdge(r, entities, Triple(subject, name, o));
      }
    }
  }

  // ----- whether a closure ends what it tombstones

  /** When the version in force was heard. */
  function HeardInForce(log: seq<EdgeVersion>, at: Timestamp): Timestamp
    requires InForce(log, at, MAX_TIME)
  {
    log[LatestQualifying(log, at, MAX_TIME).value].IngestedAt()
  }

  /** An edge still in force at an instant, if at all, on the word of something heard after the turn. */
  ghost predicate OutranksTurn(turn: Turn, log: seq<EdgeVersion>, at: Timestamp) {
    InForce(log, at, MAX_TIME) ==> turn.observedAt < HeardInForce(log, at)
  }

  /** One tombstone ends the edge at its own instant exactly where the turn was not outranked. */
  lemma TombstoneEnds(turn: Turn, c: Closure, log: seq<EdgeVersion>)
    requires InForce(log, c.at, MAX_TIME)
    ensures var log' := log + [ClosingVersion(turn, c)];
      && (InForce(log', c.at, MAX_TIME) <==> turn.observedAt < HeardInForce(log, c.at))
      && OutranksTurn(turn, log', c.at)
  {
    var tombstone := ClosingVersion(turn, c);
    assert (log + [tombstone])[..|log|] == log;
    assert Qualifies(tombstone, c.at, MAX_TIME);
  }

  /** Once a closure has spoken of an instant, no other closure of the turn changes what holds there. */
  lemma TombstoneSettles(turn: Turn, other: Closure, log: seq<EdgeVersion>, at: Timestamp)
    requires OutranksTurn(turn, log, at)
    ensures var log' := log + [ClosingVersion(turn, other)];
      && InForce(log', at, MAX_TIME) == InForce(log, at, MAX_TIME)
      && OutranksTurn(turn, log', at)
  {
    assert (log + [ClosingVersion(turn, other)])[..|log|] == log;
  }

  /** What the closures so far have left, and the edges the next one ends. */
  ghost function Closing(turn: Turn, x: Extraction, at: Progress, j: nat): (r: (State, seq<StableId>))
    requires ValidExtraction(x) && Placed(x, at.out) && j < |x.closures|
  {
    assert x.closures[j] in x.closures;
    var so := AfterClosures(turn, x, at.out.entities, at, j);
    var c := x.closures[j];
    var subject := at.out.entities[c.subject];
    (so.state, Doomed(so.state, Spared(x, at.out.entities, subject, c.predicate_), subject, c))
  }

  function ClosedTriple(x: Extraction, at: Progress, j: nat, object_: StableId): Triple
    requires ValidExtraction(x) && Placed(x, at.out) && j < |x.closures|
  {
    assert x.closures[j] in x.closures;
    Triple(at.out.entities[x.closures[j].subject], x.closures[j].predicate_, object_)
  }

  /** A closure's effect on any one edge's log: one tombstone, or nothing. */
  lemma ClosureAppends(rs: Ruleset, turn: Turn, x: Extraction, at: Progress, j: nat, t: Triple)
    requires Resolved(rs, x, at) && j < |x.closures|
    ensures var (before, doomed) := Closing(turn, x, at, j);
      EdgeLog(AfterClosures(turn, x, at.out.entities, at, j + 1).state.store.edges, t) ==
      EdgeLog(before.store.edges, t) +
      (if t.object_ in doomed && t == ClosedTriple(x, at, j, t.object_)
        then [EdgeVersion(false, Since(x.closures[j].at),
                          Provenance(AgentInference, turn.observedAt, turn.session))] else [])
    ensures var so, done := AfterClosures(turn, x, at.out.entities, at, j),
      AfterClosures(turn, x, at.out.entities, at, j + 1);
      && so.out.closed <= done.out.closed
      && forall o :: o in Closing(turn, x, at, j).1 ==> Record(x, at, j, o) in done.out.closed
  {
    hide Doomed, AfterClosing, Spared, Sound, InForce, EdgeLog;
    ClosuresLand(rs, turn, x, at, j);
    assert x.closures[j] in x.closures;
    var so, c := AfterClosures(turn, x, at.out.entities, at, j), x.closures[j];
    var subject := at.out.entities[c.subject];
    var doomed := Closing(turn, x, at, j).1;
    DoomedKnown(rs, so.state, Spared(x, at.out.entities, subject, c.predicate_), subject, c);
    SubjectStored(rs, x, at, so.state, c);
    ClosingLands(rs, turn, c, subject, doomed, so, |doomed|);
    assert doomed[..|doomed|] == doomed;
    forall o | o in doomed ensures Record(x, at, j, o) in ClosedEdges(c, subject, doomed) {
      var i :| 0 <= i < |doomed| && doomed[i] == o;
      assert ClosedEdges(c, subject, doomed)[i] == Record(x, at, j, o);
    }
  }

  /** What the turn's answer says of an edge a closure ended. */
  function Record(x: Extraction, at: Progress, j: nat, object_: StableId): Closed
    requires ValidExtraction(x) && Placed(x, at.out) && j < |x.closures|
  {
    var t := ClosedTriple(x, at, j, object_);
    Closed(t.subject, t.predicate_, t.object_, x.closures[j].because)
  }

  lemma SubjectStored(rs: Ruleset, x: Extraction, at: Progress, s: State, c: Closure)
    requires Resolved(rs, x, at) && OnlyEdges(at.state, s) && c.subject < |at.out.entities|
    ensures at.out.entities[c.subject] in s.store.entities
  {
    hide BlocksDerived;
  }

  /**
   Of the state the turn's closures leave: every edge one of them ended is in the answer, and it
   still holds at the instant that closure speaks of exactly when, as it spoke, the edge held on the
   word of something heard after the turn.
   */
  lemma {:induction false} ClosureEndsEdge(rs: Ruleset, turn: Turn, x: Extraction, at: Progress, j: nat, n: nat,
                                           o: StableId)
    requires Resolved(rs, x, at) && j < n <= |x.closures| && o in Closing(turn, x, at, j).1
    ensures var before := EdgeLog(Closing(turn, x, at, j).0.store.edges, ClosedTriple(x, at, j, o));
      var after := EdgeLog(AfterClosures(turn, x, at.out.entities, at, n).state.store.edges, ClosedTriple(x, at, j, o));
      var c := x.closures[j];
      && Record(x, at, j, o) in AfterClosures(turn, x, at.out.entities, at, n).out.closed
      && InForce(before, c.at, MAX_TIME)
      && (InForce(after, c.at, MAX_TIME) <==> turn.observedAt < HeardInForce(before, c.at))
      && OutranksTurn(turn, after, c.at)
  {
    hide AfterClosures, Doomed, Spared, Sound, InForce, EdgeLog, OutranksTurn, HeardInForce;
    var t, c := ClosedTriple(x, at, j, o), x.closures[j];
    DoomedHolds(rs, turn, x, at, j, o);
    ClosureAppends(rs, turn, x, at, n - 1, t);
    if n == j + 1 {
      TombstoneEnds(turn, c, EdgeLog(Closing(turn, x, at, j).0.store.edges, t));
    } else {
      ClosureEndsEdge(rs, turn, x, at, j, n - 1, o);
      TombstoneSettles(turn, x.closures[n - 1], EdgeLog(Closing(turn, x, at, n - 1).0.store.edges, t), c.at);
      assert EdgeLog(Closing(turn, x, at, n - 1).0.store.edges, t) + [] ==
        EdgeLog(Closing(turn, x, at, n - 1).0.store.edges, t);
    }
  }

  lemma DoomedHolds(rs: Ruleset, turn: Turn, x: Extraction, at: Progress, j: nat, o: StableId)
    requires Resolved(rs, x, at) && j < |x.closures| && o in Closing(turn, x, at, j).1
    ensures InForce(EdgeLog(Closing(turn, x, at, j).0.store.edges, ClosedTriple(x, at, j, o)),
                    x.closures[j].at, MAX_TIME)
  {
    hide AfterClosures, Spared, InForce, Doomed, Sound;
    ClosuresLand(rs, turn, x, at, j);
    assert x.closures[j] in x.closures;
    var (before, doomed) := Closing(turn, x, at, j);
    var c := x.closures[j];
    var subject := at.out.entities[c.subject];
    DoomedKnown(rs, before, Spared(x, at.out.entities, subject, c.predicate_), subject, c);
    var i :| 0 <= i < |doomed| && doomed[i] == o;
  }

  // ----- the turn

  /** Where everything a finished turn wrote can be found. */
  ghost predicate Delivered(s: State, turn: Turn, x: Extraction, done: State, out: Ingested) {
    && |out.entities| == |x.mentions|
    && out.assertions == Numbers(s.nextAssertion, |x.mentions| + |x.facts|)
    && (forall i :: 0 <= i < |x.mentions| ==>
          Reads(done, out.assertions[i], out.entities[i], "kind",
                Version(Some(x.mentions[i].kind), Since(turn.observedAt),
                        Provenance(ToolOutput, turn.observedAt, turn.session), Corrects, None)))
    && (forall i :: 0 <= i < |x.facts| ==>
          var f := x.facts[i];
          && f.subject < |out.entities|
          && Reads(done, out.assertions[|x.mentions| + i], out.entities[f.subject], f.attribute,
                   Written(Version(f.value, Since(f.validFrom),
                                   Provenance(ToolOutput, turn.observedAt, turn.session), f.supersession, None))))
    && (forall id :: id in s.assertions ==>
          id in done.assertions && done.assertions[id] == s.assertions[id] && Resolve(done, id) == Resolve(s, id))
  }

  lemma ReadsAcrossEdges(s: State, s': State)
    requires OnlyEdges(s, s')
    ensures forall id :: Resolve(s', id) == Resolve(s, id)
    ensures forall id, e, a, v :: Reads(s, id, e, a, v) ==> Reads(s', id, e, a, v)
  {
    SameReadings(s, s');
  }

  lemma FaithfulAcrossEdges(rs: Ruleset, s: State, s': State)
    requires Sound(rs, s) && OnlyEdges(s, s') && s'.store.Sound() && Faithful(s)
    ensures Faithful(s')
  {
    StoreSwapKeeps(rs, s, s'.store);
  }

  /** The state and record once mentions and facts have landed. */
  ghost function Stated(rs: Ruleset, s: State, turn: Turn, x: Extraction, p: Prepared): Progress
    requires ValidExtraction(x) && CountsMatch(x, p)
  {
    MentionsPlaced(rs, s, turn, x, p, |x.mentions|);
    AfterFacts(turn, x, p, AfterMentions(rs, s, turn, x, p, |x.mentions|), |x.facts|)
  }

  /** Mentions and facts cannot fail once the vectors fit, and everything written can be read back. */
  lemma StatedDelivers(rs: Ruleset, s: State, turn: Turn, x: Extraction, p: Prepared)
    requires Sound(rs, s) && ValidExtraction(x) && CountsMatch(x, p) && VectorsFit(s.index, p)
    ensures var so := Stated(rs, s, turn, x, p);
      && Resolved(rs, x, so) && so.out.closed == []
      && Delivered(s, turn, x, so.state, so.out)
  {
    hide Sound, Resolve, VectorIndex.Check, Written, Reads, MentionReads, FactReads, Delivered;
    MentionsLand(rs, s, turn, x, p, |x.mentions|);
    MentionsPlaced(rs, s, turn, x, p, |x.mentions|);
    var mentioned := AfterMentions(rs, s, turn, x, p, |x.mentions|);
    forall v ensures mentioned.state.index.Check(v) == s.index.Check(v) {
      SameCheck(s, mentioned.state, v);
    }
    FactsLand(rs, turn, x, p, mentioned, |x.facts|);
    WrittenIsDelivered(s, turn, x, mentioned, Stated(rs, s, turn, x, p));
  }

  lemma WrittenIsDelivered(s: State, turn: Turn, x: Extraction, mentioned: Progress, so: Progress)
    requires MentionsWritten(s, turn, x, mentioned, |x.mentions|)
    requires FactsWritten(turn, x, mentioned, so, |x.facts|)
    ensures Delivered(s, turn, x, so.state, so.out)
  {
    hide Resolve, Written, Reads, Extends;
    ExtendsAcross(s, mentioned.state, so.state);
    AssertionsInOrder(s, turn, x, mentioned, so);
    forall i | 0 <= i < |x.mentions|
      ensures Reads(so.state, so.out.assertions[i], so.out.entities[i], "kind",
                    Version(Some(x.mentions[i].kind), Since(turn.observedAt), TurnProvenance(turn), Corrects, None))
    {
      assert MentionReads(s, turn, x, mentioned, i);
      ReadsPersist(mentioned.state, so.state, s.nextAssertion + i, mentioned.out.entities[i], "kind",
                   Version(Some(x.mentions[i].kind), Since(turn.observedAt), TurnProvenance(turn), Corrects, None));
    }
    forall i | 0 <= i < |x.facts|
      ensures var f := x.facts[i];
        && f.subject < |so.out.entities|
        && Reads(so.state, so.out.assertions[|x.mentions| + i], so.out.entities[f.subject], f.attribute,
                 Written(Version(f.value, Since(f.validFrom), TurnProvenance(turn), f.supersession, None)))
    {
      assert FactReads(turn, x, mentioned, so.state, i);
    }
    OldReadings(s, so.state);
  }

  lemma OldReadings(s: State, s': State)
    requires Extends(s, s')
    ensures forall id :: id in s.assertions ==>
      id in s'.assertions && s'.assertions[id] == s.assertions[id] && Resolve(s', id) == Resolve(s, id)
  {
  }

  lemma ReadsPersist(s: State, s': State, id: AssertionId, entity: StableId, attribute: string, v: Version)
    requires Reads(s, id, entity, attribute, v) && Extends(s, s')
    ensures Reads(s', id, entity, attribute, v)
  {
    hide Resolve;
  }

  lemma AssertionsInOrder(s: State, turn: Turn, x: Extraction, mentioned: Progress, so: Progress)
    requires MentionsWritten(s, turn, x, mentioned, |x.mentions|)
    requires FactsWritten(turn, x, mentioned, so, |x.facts|)
    ensures so.out.assertions == Numbers(s.nextAssertion, |x.mentions| + |x.facts|)
  {
    hide Extends, MentionReads, FactReads;
  }

  ghost predicate NothingCollapses(x: Extraction, entities: seq<StableId>)
    requires forall r :: r in x.relations ==> r.subject < |entities| && r.object_ < |entities|
  {
    forall i :: 0 <= i < |x.relations| ==> x.relations[i] in x.relations && !Collapses(entities, x.relations[i])
  }

  /**
   A well-formed turn whose vectors fit succeeds exactly when no relation's two mentions resolved
   to one entity. When it does, its assertions are the mentions' followed by the facts', in order,
   each located at its mention's entity; every relation's edge ends with what this turn
   said of it, whichever mention named the subject; and nothing else's reading moved.
   */
  lemma IngestDelivers(rs: Ruleset, s: State, turn: Turn, x: Extraction, p: Prepared)
    requires Sound(rs, s) && ValidExtraction(x) && CountsMatch(x, p) && VectorsFit(s.index, p)
    ensures var so, r := Stated(rs, s, turn, x, p), Ingest(rs, s, turn, x, p);
      && Placed(x, so.out)
      && (r.result.Ok? <==> NothingCollapses(x, so.out.entities))
      && (r.result.Ok? ==>
            && Delivered(s, turn, x, r.state, r.result.value)
            && r.result.value.entities == so.out.entities
            && (forall t :: AssertedBy(x, so.out.entities, t) ==>
                  EdgeLog(r.state.store.edges, t) ==
                  EdgeLog(so.state.store.edges, t) + RelationLog(turn, x, so.out.entities, t, |x.relations|))
            && (forall c :: c in r.result.value.closed ==> !AssertedBy(x, so.out.entities, EdgeOf(c))))
  {
    hide Sound, Delivered, RelationLog, EdgeLog, AssertedBy, Collapses, FirstComplaint;
    NoComplaintIffValid(x);
    StatedDelivers(rs, s, turn, x, p);
    var so := Stated(rs, s, turn, x, p);
    RelationsLand(rs, turn, x, so, |x.relations|);
    var related := AfterRelations(turn, x, so, |x.relations|);
    if related.stopped.None? {
      ClosuresLand(rs, turn, x, related, |x.closures|);
      var done := AfterClosures(turn, x, related.out.entities, related, |x.closures|);
      DeliveredAcrossEdges(s, turn, x, so, related, done);
      forall c | c in done.out.closed ensures !AssertedBy(x, so.out.entities, EdgeOf(c)) {
        var i :| 0 <= i < |done.out.closed| && done.out.closed[i] == c;
      }
    }
  }

  lemma DeliveredAcrossEdges(s: State, turn: Turn, x: Extraction, so: Progress, related: Progress, done: Progress)
    requires Delivered(s, turn, x, so.state, so.out)
    requires OnlyEdges(so.state, related.state) && OnlyEdges(related.state, done.state)
    requires related.out == so.out && done.out == so.out.(closed := done.out.closed)
    ensures Delivered(s, turn, x, done.state, done.out)
  {
    hide Resolve, Written, Reads;
    ReadsAcrossEdges(so.state, done.state);
  }

  // ----- what a finished turn's closures have ended

  /** What a turn's relations leave for its closures to read. */
  ghost function RelatedBy(rs: Ruleset, s: State, turn: Turn, x: Extraction, p: Prepared): Progress
    requires ValidExtraction(x) && CountsMatch(x, p)
  {
    MentionsPlaced(rs, s, turn, x, p, |x.mentions|);
    AfterRelations(turn, x, Stated(rs, s, turn, x, p), |x.relations|)
  }

  /**
   Of the state a finished turn leaves: an edge the `j`th closure ended is in the answer, and still
   holds at the instant that closure speaks of exactly when, as it spoke, the edge held on the word
   of something heard after the turn.
   */
  lemma IngestCloses(rs: Ruleset, s: State, turn: Turn, x: Extraction, p: Prepared, j: nat, o: StableId)
    requires Sound(rs, s) && ValidExtraction(x) && CountsMatch(x, p) && VectorsFit(s.index, p) && j < |x.closures|
    ensures var at, r := RelatedBy(rs, s, turn, x, p), Ingest(rs, s, turn, x, p);
      r.result.Ok? ==>
        && Resolved(rs, x, at) && r.result.value.entities == at.out.entities
        && (o in Closing(turn, x, at, j).1 <==>
              var t := ClosedTriple(x, at, j, o);
              !AssertedBy(x, at.out.entities, t)
              && InForce(EdgeLog(Closing(turn, x, at, j).0.store.edges, t), x.closures[j].at, MAX_TIME))
        && (o in Closing(turn, x, at, j).1 ==>
              var t, c := ClosedTriple(x, at, j, o), x.closures[j];
              var before := EdgeLog(Closing(turn, x, at, j).0.store.edges, t);
              && Record(x, at, j, o) in r.result.value.closed
              && InForce(before, c.at, MAX_TIME)
              && (InForce(EdgeLog(r.state.store.edges, t), c.at, MAX_TIME) <==>
                    turn.observedAt < HeardInForce(before, c.at)))
  {
    hide Sound, Delivered, Doomed, Spared, InForce, EdgeLog, HeardInForce, Collapses, FirstComplaint, AfterClosures;
    NoComplaintIffValid(x);
    StatedDelivers(rs, s, turn, x, p);
    RelationsLand(rs, turn, x, Stated(rs, s, turn, x, p), |x.relations|);
    var at := RelatedBy(rs, s, turn, x, p);
    if at.stopped.None? {
      ClosuresLand(rs, turn, x, at, |x.closures|);
      ClosingExactly(turn, x, at, j, o);
      if o in Closing(turn, x, at, j).1 {
        ClosureEndsEdge(rs, turn, x, at, j, |x.closures|, o);
      }
    }
  }

  /** A closure ends each edge of its subject and predicate in force as it speaks, but those the turn asserted. */
  lemma ClosingExactly(turn: Turn, x: Extraction, at: Progress, j: nat, o: StableId)
    requires ValidExtraction(x) && Placed(x, at.out) && j < |x.closures|
    ensures var t := ClosedTriple(x, at, j, o);
      o in Closing(turn, x, at, j).1 <==>
      !AssertedBy(x, at.out.entities, t)
      && InForce(EdgeLog(Closing(turn, x, at, j).0.store.edges, t), x.closures[j].at, MAX_TIME)
  {
    hide AfterClosures, Doomed, Spared, InForce, AssertedBy;
    assert x.closures[j] in x.closures;
    var c := x.closures[j];
    var subject := at.out.entities[c.subject];
    SparedIsAsserted(x, at.out.entities, subject, c.predicate_);
    DoomedExactly(Closing(turn, x, at, j).0, Spared(x, at.out.entities, subject, c.predicate_), subject, c);
  }

  // ----- a closure that ends nothing

  /** One mention, and a closure of what it worked at. */
  function OneClosure(): Extraction {
    Extraction([Mention("person", "Ann")], [], [], [Closure(0, "works_at", 0, "left")])
  }

  function OneVector(): Prepared {
    Prepared([[Finite(1.0)]], [])
  }

  lemma OneClosureFits()
    ensures ValidExtraction(OneClosure()) && CountsMatch(OneClosure(), OneVector())
  {
    assert OneClosure().mentions[0].name[0] == 'A';
    forall m | m in OneClosure().mentions ensures !Blank(m.name) {
      assert m.name[0] in m.name && !IsSpace(m.name[0]);
    }
  }

  /** The turn with that one closure, where its mention is someone known to work somewhere. */
  lemma OneClosureCloses(rs: Ruleset, s: State, turn: Turn, subject: StableId, o: StableId)
    requires Sound(rs, s) && s.index.Check([Finite(1.0)]).None?
    requires BestMatch(rs, s, MentionRecord(Mention("person", "Ann"))) == Some(subject)
    requires InForce(EdgeLog(s.store.edges, Triple(subject, "works_at", o)), 0, MAX_TIME)
    ensures var t, r := Triple(subject, "works_at", o), Ingest(rs, s, turn, OneClosure(), OneVector());
      && r.result.Ok? && Closed(subject, "works_at", o, "left") in r.result.value.closed
      && (InForce(EdgeLog(r.state.store.edges, t), 0, MAX_TIME) <==>
            turn.observedAt < HeardInForce(EdgeLog(s.store.edges, t), 0))
  {
    OneClosureFits();
    var x, p := OneClosure(), OneVector();
    assert x.facts == [] && x.relations == [] && |x.closures| == 1;
    var obs := MentionObservation(turn, x.mentions[0], p.mentions[0]);
    hide Sound, Remember, BestMatch, VectorIndex.Check, InForce, HeardInForce, Delivered, Resolved, FirstComplaint;
    MatchedExtends(rs, s, subject, obs);
    assert AfterMentions(rs, s, turn, x, p, 0) == Progress(s, Ingested([], [], [], []), None);
    var at := RelatedBy(rs, s, turn, x, p);
    assert at == AfterMentions(rs, s, turn, x, p, 1);
    assert at.out.entities == [subject] && at.state.store.edges == s.store.edges;
    IngestDelivers(rs, s, turn, x, p);
    IngestCloses(rs, s, turn, x, p, 0, o);
    InForceIsDoomed(at.state, Triple(subject, "works_at", o), x.closures[0]);
    assert Spared(x, at.out.entities, subject, "works_at") == {};
    assert AfterClosures(turn, x, at.out.entities, at, 0) == at;
  }

  lemma InForceIsDoomed(s: State, t: Triple, c: Closure)
    requires t.predicate_ == c.predicate_ && InForce(EdgeLog(s.store.edges, t), c.at, MAX_TIME)
    ensures t.object_ in Doomed(s, {}, t.subject, c)
  {
    assert t in s.store.edges;
  }

  // ----- a turn that fails half-way

  /** A ruleset under which every mention is everyone already known. */
  function Credulous(): Ruleset {
    Ruleset((a: Record, b: Record) => 1.0, [], 0.5, 0.25)
  }

  /** Two mentions, and a relation from the one to the other. */
  function TwoNames(): Extraction {
    Extraction([Mention("person", "Ann"), Mention("person", "Anna")], [], [Relation(0, "knows", 1, 0)], [])
  }

  function TwoVectors(): Prepared {
    Prepared([[Finite(1.0)], [Finite(1.0)]], [])
  }

  lemma TwoNamesFit()
    ensures ValidExtraction(TwoNames()) && CountsMatch(TwoNames(), TwoVectors())
    ensures VectorsFit(VectorIndex(1, L2, map[]), TwoVectors())
  {
    assert TwoNames().mentions[0].name[0] == 'A' && TwoNames().mentions[1].name[0] == 'A';
    forall m | m in TwoNames().mentions ensures !Blank(m.name) {
      assert m.name[0] in m.name && !IsSpace(m.name[0]);
    }
  }

  /** The lowest id known wins a credulous match. */
  lemma LowestMatches(s: State, mention: Record, id: StableId)
    requires id in s.identity && forall other :: other in s.identity ==> id <= other
    ensures BestMatch(Credulous(), s, mention) == Some(id)
  {
    assert Banded(Credulous(), s, mention, id, Match);
    assert Wins(Credulous(), s, mention, id);
    BestMatchIs(Credulous(), s, mention, id);
  }

  lemma NothingMatches(s: State, mention: Record)
    requires s.identity == map[]
    ensures BestMatch(Credulous(), s, mention).None?
  {
    forall id ensures !Wins(Credulous(), s, mention, id) {}
  }

  lemma FirstMentionCreates(s: State, obs: Observation)
    requires Sound(Credulous(), s) && s.identity == map[] && s.index.Check(obs.embedding).None?
    ensures var r := Remember(Credulous(), s, obs);
      r.result.Ok? && r.state.identity.Keys == {r.result.value.entity}
  {
    hide Write, CreateEntity, VectorIndex.Check, BestMatch, Sound, Remember, Askable, Questions;
    NothingMatches(s, obs.mention);
    CreatedShape(Credulous(), s, obs);
    CreateKeeps(Credulous(), s, obs);
    var (created, entity) := CreateEntity(Credulous(), s, obs);
    WriteKeeps(Credulous(), created, entity, obs);
  }

  lemma SecondMentionMatches(s: State, obs: Observation, id: StableId)
    requires Sound(Credulous(), s) && s.identity.Keys == {id} && s.index.Check(obs.embedding).None?
    ensures var r := Remember(Credulous(), s, obs);
      r.result.Ok? && r.result.value.entity == id
  {
    LowestMatches(s, obs.mention, id);
    hide Sound, Remember, VectorIndex.Check, BestMatch;
    MatchedExtends(Credulous(), s, id, obs);
  }

  lemma BothNamesAreOne(turn: Turn)
    ensures var s, x, p := New(VectorIndex(1, L2, map[])), TwoNames(), TwoVectors();
      && ValidExtraction(x) && CountsMatch(x, p)
      && var so := AfterMentions(Credulous(), s, turn, x, p, 2);
         so.stopped.None? && |so.out.entities| == 2 && so.out.entities[0] == so.out.entities[1]
  {
    var s, x, p := New(VectorIndex(1, L2, map[])), TwoNames(), TwoVectors();
    TwoNamesFit();
    NewIsSound(Credulous(), VectorIndex(1, L2, map[]));
    assert p.mentions[0] in p.mentions && p.mentions[1] in p.mentions;
    hide Sound, Remember, VectorIndex.Check, MentionObservation, TwoNames, TwoVectors;
    MentionsLand(Credulous(), s, turn, x, p, 1);
    MentionsLand(Credulous(), s, turn, x, p, 2);
    var one := AfterMentions(Credulous(), s, turn, x, p, 1);
    assert AfterMentions(Credulous(), s, turn, x, p, 0) == Progress(s, Ingested([], [], [], []), None);
    FirstMentionCreates(s, MentionObservation(turn, x.mentions[0], p.mentions[0]));
    SameCheck(s, one.state, p.mentions[1]);
    SecondMentionMatches(one.state, MentionObservation(turn, x.mentions[1], p.mentions[1]), one.out.entities[0]);
  }

  /**
   The failing input: a well-formed turn with fitting vectors whose two related mentions turn out
   to be one entity. It is refused, and what its mentions said has already been recorded.
   */
  lemma CollapsingTurn(turn: Turn)
    ensures var s, x, p := New(VectorIndex(1, L2, map[])), TwoNames(), TwoVectors();
      var r := Ingest(Credulous(), s, turn, x, p);
      && ValidExtraction(x) && CountsMatch(x, p) && VectorsFit(s.index, p)
      && r.result.Err?
      && s.assertions == map[] && r.state.assertions != map[]
  {
    var s, x, p := New(VectorIndex(1, L2, map[])), TwoNames(), TwoVectors();
    TwoNamesFit();
    NewIsSound(Credulous(), VectorIndex(1, L2, map[]));
    BothNamesAreOne(turn);
    assert |x.mentions| == 2 && x.facts == [] && x.relations == [Relation(0, "knows", 1, 0)];
    hide Sound, Delivered, Credulous, TwoNames, TwoVectors, AfterMentions, AfterClosures, FirstComplaint;
    IngestDelivers(Credulous(), s, turn, x, p);
    StatedDelivers(Credulous(), s, turn, x, p);
    var so := Stated(Credulous(), s, turn, x, p);
    assert Collapses(so.out.entities, x.relations[0]);
    RelationsLand(Credulous(), turn, x, so, 1);
    NoComplaintIffValid(x);
    assert s.nextAssertion in so.state.assertions by { FirstStands(s, turn, x, so); }
  }

  lemma FirstStands(s: State, turn: Turn, x: Extraction, so: Progress)
    requires Delivered(s, turn, x, so.state, so.out) && x.mentions != []
    ensures s.nextAssertion in so.state.assertions
  {
    hide Resolve;
    assert so.out.assertions[0] == s.nextAssertion;
    assert Reads(so.state, so.out.assertions[0], so.out.entities[0], "kind",
                 Version(Some(x.mentions[0].kind), Since(turn.observedAt), TurnProvenance(turn), Corrects, None));
  }

  // ----- the invariant, whatever the turn answers

  lemma {:induction false} MentionsKeep(rs: Ruleset, s: State, turn: Turn, x: Extraction, p: Prepared, n: nat)
    requires Sound(rs, s) && CountsMatch(x, p) && n <= |x.mentions|
    ensures var so := AfterMentions(rs, s, turn, x, p, n);
      && Sound(rs, so.state) && (Faithful(s) ==> Faithful(so.state))
      && (so.stopped.None? ==>
            |so.out.entities| == n && forall i :: 0 <= i < n ==> so.out.entities[i] in so.state.identity)
  {
    hide Sound, Faithful, Remember, VectorIndex.Check;
    if n > 0 {
      MentionsKeep(rs, s, turn, x, p, n - 1);
      var so := AfterMentions(rs, s, turn, x, p, n - 1);
      if so.stopped.None? {
        var obs := MentionObservation(turn, x.mentions[n - 1], p.mentions[n - 1]);
        RememberKeeps(rs, so.state, obs);
        if Remember(rs, so.state, obs).result.Ok? { RememberExtends(rs, so.state, obs); }
      }
    }
  }

  lemma {:induction false} FactsKeep(rs: Ruleset, turn: Turn, x: Extraction, p: Prepared, at: Progress, n: nat)
    requires CountsMatch(x, p) && n <= |x.facts| && ValidExtraction(x) && Sound(rs, at.state)
    requires at.stopped.None? ==>
      Placed(x, at.out) && forall i :: 0 <= i < |at.out.entities| ==> at.out.entities[i] in at.state.identity
    ensures var so := AfterFacts(turn, x, p, at, n);
      && Sound(rs, so.state) && (Faithful(at.state) ==> Faithful(so.state))
      && so.state.identity == at.state.identity
  {
    hide Sound, Faithful, Write, VectorIndex.Check;
    if n > 0 {
      FactsKeep(rs, turn, x, p, at, n - 1);
      var so := AfterFacts(turn, x, p, at, n - 1);
      if so.stopped.None? {
        assert x.facts[n - 1] in x.facts;
        var f := x.facts[n - 1];
        WriteKeeps(rs, so.state, so.out.entities[f.subject],
                   FactObservation(turn, x.mentions[f.subject], f, p.facts[n - 1]));
      }
    }
  }

  lemma {:induction false} StoppedStaysStopped(turn: Turn, x: Extraction, at: Progress, n: nat)
    requires n <= |x.relations| && ValidExtraction(x) && at.stopped.Some?
    ensures AfterRelations(turn, x, at, n) == at
  {
    if n > 0 { StoppedStaysStopped(turn, x, at, n - 1); }
  }

  /** Whatever a turn answers, even a refusal half-way through its relations, the invariant stands. */
  lemma IngestKeeps(rs: Ruleset, s: State, turn: Turn, x: Extraction, p: Prepared)
    requires Sound(rs, s)
    ensures Sound(rs, Ingest(rs, s, turn, x, p).state)
    ensures Faithful(s) ==> Faithful(Ingest(rs, s, turn, x, p).state)
  {
    hide Faithful, RelationLog, EdgeLog, Collapses, FirstComplaint, BlocksDerived;
    NoComplaintIffValid(x);
    if ValidExtraction(x) && CountsMatch(x, p) {
      MentionsPlaced(rs, s, turn, x, p, |x.mentions|);
      MentionsKeep(rs, s, turn, x, p, |x.mentions|);
      var mentioned := AfterMentions(rs, s, turn, x, p, |x.mentions|);
      FactsKeep(rs, turn, x, p, mentioned, |x.facts|);
      var so := AfterFacts(turn, x, p, mentioned, |x.facts|);
      if so.stopped.Some? {
        StoppedStaysStopped(turn, x, so, |x.relations|);
      } else {
        EdgesKeep(rs, turn, x, so);
      }
    }
  }

  lemma EdgesKeep(rs: Ruleset, turn: Turn, x: Extraction, so: Progress)
    requires Resolved(rs, x, so)
    ensures var related := AfterRelations(turn, x, so, |x.relations|);
      && Sound(rs, related.state) && (Faithful(so.state) ==> Faithful(related.state))
      && (related.stopped.None? ==>
            var done := AfterClosures(turn, x, related.out.entities, related, |x.closures|);
            Sound(rs, done.state) && (Faithful(so.state) ==> Faithful(done.state)))
  {
    hide Faithful, RelationLog, EdgeLog, Collapses, BlocksDerived, AssertedBy;
    RelationsLand(rs, turn, x, so, |x.relations|);
    var related := AfterRelations(turn, x, so, |x.relations|);
    if Faithful(so.state) { FaithfulAcrossEdges(rs, so.state, related.state); }
    if related.stopped.None? {
      ClosuresLand(rs, turn, x, related, |x.closures|);
      var done := AfterClosures(turn, x, related.out.entities, related, |x.closures|);
      if Faithful(so.state) { FaithfulAcrossEdges(rs, related.state, done.state); }
    }
  }
}
