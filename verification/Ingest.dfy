/**
 Applying one extracted turn to an engine: the checks, then the four loops, each proved to leave
 what the matching function of `IngestState` says it does.
 */
module Ingest {
  import opened Core
  import opened Ordering
  import opened Store
  import opened Resolution
  import opened EngineState
  import opened EngineInvariant
  import opened EngineLaws
  import opened IngestState
  import opened IngestLaws
  import opened Engine

  // ----- before the first write

  /** The first thing wrong with an extraction, in the order the checks run. */
  method Validate(x: Extraction) returns (complaint: Option<EngineError>)
    ensures complaint == FirstComplaint(x)
    ensures complaint.None? <==> ValidExtraction(x)
  {
    hide ValidExtraction, Blank;
    NoComplaintIffValid(x);
    for i := 0 to |x.mentions|
      invariant NameComplaintFrom(x.mentions, 0) == NameComplaintFrom(x.mentions, i)
    {
      if Blank(x.mentions[i].name) {
        return Some(NamelessMention(i));
      }
    }
    var mentions := |x.mentions|;
    for i := 0 to |x.facts|
      invariant FactComplaintFrom(x.facts, mentions, 0) == FactComplaintFrom(x.facts, mentions, i)
    {
      if x.facts[i].subject >= mentions {
        return Some(BadMentionIndex(x.facts[i].subject));
      }
    }
    for i := 0 to |x.relations|
      invariant RelationComplaintFrom(x.relations, mentions, 0) == RelationComplaintFrom(x.relations, mentions, i)
    {
      var relation := x.relations[i];
      if relation.subject >= mentions {
        return Some(BadMentionIndex(relation.subject));
      }
      if relation.object_ >= mentions {
        return Some(BadMentionIndex(relation.object_));
      }
      if relation.subject == relation.object_ {
        return Some(EngineError.SelfRelation(relation.subject));
      }
    }
    for i := 0 to |x.closures|
      invariant ClosureComplaintFrom(x.closures, mentions, 0) == ClosureComplaintFrom(x.closures, mentions, i)
    {
      if x.closures[i].subject >= mentions {
        return Some(BadMentionIndex(x.closures[i].subject));
      }
    }
    return None;
  }

  // ----- the loops

  /** One outcome appended to the turn's four lists. */
  function Record(out: Ingested, remembered: Remembered): Ingested {
    match remembered
    case Merged(entity, assertion) =>
      out.(entities := out.entities + [entity], assertions := out.assertions + [assertion])
    case Created(entity, assertion) =>
      out.(entities := out.entities + [entity], assertions := out.assertions + [assertion])
    case CreatedPendingReview(entity, assertion, review) =>
      out.(entities := out.entities + [entity], assertions := out.assertions + [assertion],
           reviews := out.reviews + review)
  }

  lemma RecordIsRecorded(out: Ingested, remembered: Remembered)
    ensures Record(out, remembered) == Recorded(out, remembered)
  {
    assert out.reviews + [] == out.reviews;
  }

  method Mentions(e: Engine, turn: Turn, x: Extraction, p: Prepared)
    returns (out: Ingested, stopped: Option<EngineError>)
    requires e.Valid() && CountsMatch(x, p)
    modifies e
    ensures Progress(e.View(), out, stopped) == AfterMentions(e.ruleset, old(e.View()), turn, x, p, |x.mentions|)
    ensures e.Valid()
  {
    hide Sound, EngineState.Remember, Recorded, MentionObservation, CountsMatch;
    ghost var rs, s := e.ruleset, e.View();
    out := Ingested([], [], [], []);
    for i := 0 to |x.mentions|
      invariant e.Valid()
      invariant Progress(e.View(), out, None) == AfterMentions(rs, s, turn, x, p, i)
    {
      SameCounts(x, p);
      var mention := x.mentions[i];
      var provenance := Provenance(ToolOutput, turn.observedAt, turn.session);
      // Every mention is remembered through its kind, facts or none.
      var obs := Observation(mention.kind, map["name" := mention.name, "kind" := mention.kind],
                             "kind", Some(mention.kind), Since(turn.observedAt), provenance,
                             Corrects, None, p.mentions[i]);
      IsMentionObservation(turn, mention, p.mentions[i], obs);
      var remembered := e.Remember(obs);
      if remembered.Err? {
        MentionsStay(rs, s, turn, x, p, i + 1, |x.mentions|);
        return out, Some(remembered.error);
      }
      RecordIsRecorded(out, remembered.value);
      out := Record(out, remembered.value);
    }
    return out, None;
  }

  lemma IsMentionObservation(turn: Turn, m: Mention, v: Vector, obs: Observation)
    requires obs == Observation(m.kind, map["name" := m.name, "kind" := m.kind],
                                "kind", Some(m.kind), Since(turn.observedAt),
                                Provenance(ToolOutput, turn.observedAt, turn.session), Corrects, None, v)
    ensures obs == MentionObservation(turn, m, v)
  {
  }

  lemma IsFactObservation(turn: Turn, m: Mention, f: ExtractedFact, v: Vector, obs: Observation)
    requires obs == Observation(m.kind, map["name" := m.name, "kind" := m.kind],
                                f.attribute, f.value, Since(f.validFrom),
                                Provenance(ToolOutput, turn.observedAt, turn.session), f.supersession, None, v)
    ensures obs == FactObservation(turn, m, f, v)
  {
  }

  lemma SameCounts(x: Extraction, p: Prepared)
    requires CountsMatch(x, p)
    ensures |p.mentions| == |x.mentions| && |p.facts| == |x.facts|
  {
  }

  lemma {:induction false} MentionsStay(rs: Ruleset, s: State, turn: Turn, x: Extraction, p: Prepared, i: nat, n: nat)
    requires CountsMatch(x, p) && i <= n <= |x.mentions|
    requires AfterMentions(rs, s, turn, x, p, i).stopped.Some?
    ensures AfterMentions(rs, s, turn, x, p, n) == AfterMentions(rs, s, turn, x, p, i)
  {
    hide EngineState.Remember, MentionObservation;
    if i < n { MentionsStay(rs, s, turn, x, p, i, n - 1); }
  }

  /** A fact needs no resolution of its own: its mention's outcome names the entity. */
  method Facts(e: Engine, turn: Turn, x: Extraction, p: Prepared, recorded: Ingested)
    returns (out: Ingested, stopped: Option<EngineError>)
    requires e.Valid() && CountsMatch(x, p) && ValidExtraction(x) && Placed(x, recorded)
    requires forall id :: id in recorded.entities ==> id in e.identity
    modifies e
    ensures Progress(e.View(), out, stopped) ==
      AfterFacts(turn, x, p, Progress(old(e.View()), recorded, None), |x.facts|)
    ensures e.Valid() && e.identity == old(e.identity)
  {
    hide Sound, EngineState.Write, FactObservation, CountsMatch, ValidExtraction;
    ghost var at := Progress(e.View(), recorded, None);
    ghost var identity := e.identity;
    out := recorded;
    for i := 0 to |x.facts|
      invariant e.Valid() && e.identity == identity
      invariant out.entities == recorded.entities
      invariant Progress(e.View(), out, None) == AfterFacts(turn, x, p, at, i)
    {
      SameCounts(x, p);
      SubjectKnown(x, out, i);
      var f := x.facts[i];
      var entity, mention := out.entities[f.subject], x.mentions[f.subject];
      var provenance := Provenance(ToolOutput, turn.observedAt, turn.session);
      var obs := Observation(mention.kind, map["name" := mention.name, "kind" := mention.kind],
                             f.attribute, f.value, Since(f.validFrom), provenance, f.supersession, None, p.facts[i]);
      IsFactObservation(turn, mention, f, p.facts[i], obs);
      assert entity in recorded.entities;
      WriteKeeps(e.ruleset, e.View(), entity, obs);
      var written := e.Write(entity, obs);
      if written.Err? {
        FactsStay(turn, x, p, at, i + 1, |x.facts|);
        return out, Some(written.error);
      }
      out := out.(assertions := out.assertions + [written.value]);
    }
    return out, None;
  }

  lemma SubjectKnown(x: Extraction, out: Ingested, i: nat)
    requires ValidExtraction(x) && Placed(x, out) && i < |x.facts|
    ensures x.facts[i].subject < |out.entities| && x.facts[i].subject < |x.mentions|
  {
    assert x.facts[i] in x.facts;
  }

  lemma {:induction false} FactsStay(turn: Turn, x: Extraction, p: Prepared, at: Progress, i: nat, n: nat)
    requires CountsMatch(x, p) && ValidExtraction(x) && i <= n <= |x.facts|
    requires at.stopped.None? ==> Placed(x, at.out)
    requires AfterFacts(turn, x, p, at, i).stopped.Some?
    ensures AfterFacts(turn, x, p, at, n) == AfterFacts(turn, x, p, at, i)
  {
    hide EngineState.Write, FactObservation;
    if i < n { FactsStay(turn, x, p, at, i, n - 1); }
  }

  method Relations(e: Engine, turn: Turn, x: Extraction, out: Ingested) returns (stopped: Option<EngineError>)
    requires e.Valid() && ValidExtraction(x) && Placed(x, out)
    modifies e
    ensures Progress(e.View(), out, stopped) ==
      AfterRelations(turn, x, Progress(old(e.View()), out, None), |x.relations|)
    ensures e.Valid()
  {
    hide Sound, EngineState.Relate, ValidExtraction;
    ghost var at := Progress(e.View(), out, None);
    for i := 0 to |x.relations|
      invariant e.Valid()
      invariant Progress(e.View(), out, None) == AfterRelations(turn, x, at, i)
    {
      EndsKnown(x, out, i);
      var r := x.relations[i];
      var related := e.Relate(Triple(out.entities[r.subject], r.predicate_, out.entities[r.object_]),
                              Since(r.validFrom), Provenance(ToolOutput, turn.observedAt, turn.session));
      if related.Err? {
        RelationsStay(turn, x, at, i + 1, |x.relations|);
        return Some(related.error);
      }
    }
    return None;
  }

  lemma EndsKnown(x: Extraction, out: Ingested, i: nat)
    requires ValidExtraction(x) && Placed(x, out) && i < |x.relations|
    ensures x.relations[i].subject < |out.entities| && x.relations[i].object_ < |out.entities|
  {
    assert x.relations[i] in x.relations;
  }

  lemma {:induction false} RelationsStay(turn: Turn, x: Extraction, at: Progress, i: nat, n: nat)
    requires ValidExtraction(x) && i <= n <= |x.relations|
    requires at.stopped.None? ==> Placed(x, at.out)
    requires AfterRelations(turn, x, at, i).stopped.Some?
    ensures AfterRelations(turn, x, at, n) == AfterRelations(turn, x, at, i)
  {
    hide EngineState.Relate;
    if i < n { RelationsStay(turn, x, at, i, n - 1); }
  }

  // ----- closures

  method Closures(e: Engine, turn: Turn, x: Extraction, recorded: Ingested)
    returns (out: Ingested, stopped: Option<EngineError>)
    requires e.Valid() && ValidExtraction(x) && Placed(x, recorded)
    modifies e
    ensures Progress(e.View(), out, stopped) ==
      AfterClosures(turn, x, recorded.entities, Progress(old(e.View()), recorded, None), |x.closures|)
    ensures e.Valid()
  {
    hide Sound, ValidExtraction, Doomed, AfterClosing, Spared;
    ghost var at := Progress(e.View(), recorded, None);
    out := recorded;
    for i := 0 to |x.closures|
      invariant e.Valid() && out.entities == recorded.entities
      invariant Progress(e.View(), out, None) == AfterClosures(turn, x, recorded.entities, at, i)
    {
      SpeakerKnown(x, recorded, i);
      var c := x.closures[i];
      var subject := recorded.entities[c.subject];
      var spared := SparedBy(x, recorded.entities, subject, c.predicate_);
      var doomed := EdgesFrom(e, subject, c, spared);
      out, stopped := Close(e, turn, c, subject, doomed, out);
      if stopped.Some? {
        ClosuresStay(turn, x, recorded.entities, at, i + 1, |x.closures|);
        return;
      }
    }
    stopped := None;
  }

  lemma SpeakerKnown(x: Extraction, out: Ingested, i: nat)
    requires ValidExtraction(x) && Placed(x, out) && i < |x.closures|
    ensures x.closures[i].subject < |out.entities|
    ensures forall r :: r in x.relations ==> r.subject < |out.entities| && r.object_ < |out.entities|
  {
    assert x.closures[i] in x.closures;
  }

  lemma {:induction false} ClosuresStay(turn: Turn, x: Extraction, entities: seq<StableId>, at: Progress, i: nat,
                                        n: nat)
    requires ValidExtraction(x) && |entities| == |x.mentions| && i <= n <= |x.closures|
    requires AfterClosures(turn, x, entities, at, i).stopped.Some?
    ensures AfterClosures(turn, x, entities, at, n) == AfterClosures(turn, x, entities, at, i)
  {
    hide AfterClosing, Doomed, Spared;
    if i < n { ClosuresStay(turn, x, entities, at, i, n - 1); }
  }

  /** The objects this extraction asserted for a subject and predicate, compared by resolved id. */
  method SparedBy(x: Extraction, entities: seq<StableId>, subject: StableId, name: string)
    returns (spared: set<StableId>)
    requires forall r :: r in x.relations ==> r.subject < |entities| && r.object_ < |entities|
    ensures spared == Spared(x, entities, subject, name)
  {
    spared := {};
    for i := 0 to |x.relations|
      invariant spared == set r | r in x.relations[..i]
        && entities[r.subject] == subject && r.predicate_ == name :: entities[r.object_]
    {
      var r := x.relations[i];
      assert x.relations[..i + 1] == x.relations[..i] + [r];
      if entities[r.subject] == subject && r.predicate_ == name {
        spared := spared + {entities[r.object_]};
      }
    }
    assert x.relations[..|x.relations|] == x.relations;
  }

  /** The objects of a predicate in force when the closure speaks, as far as is known now. */
  method EdgesFrom(e: Engine, subject: StableId, c: Closure, spared: set<StableId>) returns (doomed: seq<StableId>)
    ensures doomed == Doomed(e.View(), spared, subject, c)
  {
    hide InForce, InOrder;
    var edges := e.store.edges;
    var ending: set<StableId> := {};
    var todo := edges.Keys;
    while todo != {}
      invariant todo <= edges.Keys
      invariant forall o :: o in ending <==>
        Triple(subject, c.predicate_, o) in edges.Keys - todo
          && Ends(edges, Triple(subject, c.predicate_, o), c, spared)
      decreases |todo|
    {
      var t :| t in todo;
      todo := todo - {t};
      if t.subject == subject && t.predicate_ == c.predicate_ && InForce(edges[t], c.at, MAX_TIME)
         && t.object_ !in spared {
        ending := ending + {t.object_};
      }
    }
    EndingIsDoomed(e.View(), spared, subject, c, ending);
    doomed := InOrder(ending);
  }

  /** An edge a closure ends: in force when it speaks, and not one this turn asserted. */
  predicate Ends(edges: Edges, t: Triple, c: Closure, spared: set<StableId>) {
    t in edges && InForce(edges[t], c.at, MAX_TIME) && t.object_ !in spared
  }

  lemma EndingIsDoomed(s: State, spared: set<StableId>, subject: StableId, c: Closure, ending: set<StableId>)
    requires forall o :: o in ending <==> Ends(s.store.edges, Triple(subject, c.predicate_, o), c, spared)
    ensures InOrder(ending) == Doomed(s, spared, subject, c)
  {
    hide InForce, InOrder;
    var doomed := set t | t in s.store.edges && t.subject == subject && t.predicate_ == c.predicate_
                       && InForce(s.store.edges[t], c.at, MAX_TIME) && t.object_ !in spared :: t.object_;
    forall o ensures o in ending <==> o in doomed {
      var t := Triple(subject, c.predicate_, o);
      if o in ending { assert t in s.store.edges && t.object_ == o; }
    }
    assert ending == doomed;
  }

  method Close(e: Engine, turn: Turn, c: Closure, subject: StableId, doomed: seq<StableId>, recorded: Ingested)
    returns (out: Ingested, stopped: Option<EngineError>)
    requires e.Valid()
    modifies e
    ensures Progress(e.View(), out, stopped) ==
      AfterClosing(turn, c, subject, doomed, Progress(old(e.View()), recorded, None), |doomed|)
    ensures e.Valid() && out.entities == recorded.entities
  {
    hide Sound, EngineState.Unrelate;
    ghost var at := Progress(e.View(), recorded, None);
    out := recorded;
    for i := 0 to |doomed|
      invariant e.Valid() && out.entities == recorded.entities
      invariant Progress(e.View(), out, None) == AfterClosing(turn, c, subject, doomed, at, i)
    {
      var ended := e.Unrelate(Triple(subject, c.predicate_, doomed[i]), c.at,
                               Provenance(AgentInference, turn.observedAt, turn.session));
      if ended.Err? {
        ClosingStays(turn, c, subject, doomed, at, i + 1, |doomed|);
        return out, Some(ended.error);
      }
      out := out.(closed := out.closed + [Closed(subject, c.predicate_, doomed[i], c.because)]);
    }
    return out, None;
  }

  lemma {:induction false} ClosingStays(turn: Turn, c: Closure, subject: StableId, doomed: seq<StableId>,
                                        at: Progress, i: nat, n: nat)
    requires i <= n <= |doomed| && AfterClosing(turn, c, subject, doomed, at, i).stopped.Some?
    ensures AfterClosing(turn, c, subject, doomed, at, n) == AfterClosing(turn, c, subject, doomed, at, i)
  {
    hide EngineState.Unrelate;
    if i < n { ClosingStays(turn, c, subject, doomed, at, i, n - 1); }
  }

  // ----- the turn

  /** Apply a turn; on a refusal part-way, what had landed stays. */
  method IngestPrepared(e: Engine, turn: Turn, x: Extraction, p: Prepared) returns (r: Result<Ingested, EngineError>)
    requires e.Valid()
    modifies e
    ensures Step(e.View(), r) == IngestState.Ingest(e.ruleset, old(e.View()), turn, x, p)
    ensures e.Valid()
  {
    hide Sound, ValidExtraction, FirstComplaint, EngineState.Remember, AfterMentions, AfterFacts, AfterRelations,
         AfterClosures;
    ghost var rs, s := e.ruleset, e.View();
    var complaint := Validate(x);
    if complaint.Some? {
      return Err(complaint.value);
    }
    if |p.mentions| != |x.mentions| || |p.facts| != |x.facts| {
      return Err(Mismatched);
    }
    MentionsPlaced(rs, s, turn, x, p, |x.mentions|);
    MentionsKeep(rs, s, turn, x, p, |x.mentions|);
    var out, stopped := Mentions(e, turn, x, p);
    if stopped.Some? {
      StoppedAtMentions(turn, x, p, Progress(e.View(), out, stopped));
      return Err(stopped.value);
    }
    ghost var mentioned := Progress(e.View(), out, None);
    out, stopped := Facts(e, turn, x, p, out);
    ghost var stated := Progress(e.View(), out, stopped);
    if stopped.Some? {
      StoppedStaysStopped(turn, x, stated, |x.relations|);
      return Err(stopped.value);
    }
    stopped := Relations(e, turn, x, out);
    if stopped.Some? {
      return Err(stopped.value);
    }
    out, stopped := Closures(e, turn, x, out);
    if stopped.Some? {
      return Err(stopped.value);
    }
    return Ok(out);
  }

  lemma StoppedAtMentions(turn: Turn, x: Extraction, p: Prepared, at: Progress)
    requires at.stopped.Some? && ValidExtraction(x) && CountsMatch(x, p)
    ensures AfterFacts(turn, x, p, at, |x.facts|) == at
    ensures AfterRelations(turn, x, at, |x.relations|) == at
  {
    FactsStay(turn, x, p, at, 0, |x.facts|);
    StoppedStaysStopped(turn, x, at, |x.relations|);
  }
}
