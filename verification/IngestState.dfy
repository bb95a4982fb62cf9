/**
 Applying one extracted turn: the mentions resolved in order, then the facts, the relations and
 the closures, stopping at the first refusal with whatever had landed by then.
 */
module IngestState {
  import opened Core
  import opened Ordering
  import opened Store
  import opened Resolution
  import opened EngineState

  datatype Mention = Mention(kind: string, name: string)

  datatype ExtractedFact = ExtractedFact(
    subject: nat, attribute: string, value: Option<string>, validFrom: Timestamp, supersession: Supersession)

  datatype Relation = Relation(subject: nat, predicate_: string, object_: nat, validFrom: Timestamp)

  datatype Closure = Closure(subject: nat, predicate_: string, at: Timestamp, because: string)

  datatype Extraction = Extraction(
    mentions: seq<Mention>, facts: seq<ExtractedFact>, relations: seq<Relation>, closures: seq<Closure>)

  datatype Turn = Turn(observedAt: Timestamp, session: string)

  /** The turn's vectors, matched to mentions and facts by position. */
  datatype Prepared = Prepared(mentions: seq<Vector>, facts: seq<Vector>)

  datatype Closed = Closed(subject: StableId, predicate_: string, object_: StableId, because: string)

  datatype Ingested = Ingested(
    entities: seq<StableId>, assertions: seq<AssertionId>, reviews: seq<ReviewId>, closed: seq<Closed>)

  // ----- the checks before the first write

  function FactComplaint(f: ExtractedFact, mentions: nat): Option<EngineError> {
    if f.subject < mentions then None else Some(BadMentionIndex(f.subject))
  }

  function RelationComplaint(r: Relation, mentions: nat): Option<EngineError> {
    if r.subject >= mentions then Some(BadMentionIndex(r.subject))
    else if r.object_ >= mentions then Some(BadMentionIndex(r.object_))
    else if r.subject == r.object_ then Some(EngineError.SelfRelation(r.subject))
    else None
  }

  function ClosureComplaint(c: Closure, mentions: nat): Option<EngineError> {
    if c.subject < mentions then None else Some(BadMentionIndex(c.subject))
  }

  /** Well-formed: names on the mentions, indices that exist, relations between two different mentions. */
  ghost predicate ValidExtraction(x: Extraction) {
    && (forall m :: m in x.mentions ==> !Blank(m.name))
    && (forall f :: f in x.facts ==> f.subject < |x.mentions|)
    && (forall r :: r in x.relations ==>
          r.subject < |x.mentions| && r.object_ < |x.mentions| && r.subject != r.object_)
    && (forall c :: c in x.closures ==> c.subject < |x.mentions|)
  }

  predicate CountsMatch(x: Extraction, p: Prepared) {
    |p.mentions| == |x.mentions| && |p.facts| == |x.facts|
  }

  ghost predicate VectorsFit(index: VectorIndex, p: Prepared) {
    && (forall v :: v in p.mentions ==> index.Check(v).None?)
    && (forall v :: v in p.facts ==> index.Check(v).None?)
  }

  // ----- what each item writes

  function TurnProvenance(turn: Turn): Provenance {
    Provenance(ToolOutput, turn.observedAt, turn.session)
  }

  function InferredProvenance(turn: Turn): Provenance {
    Provenance(AgentInference, turn.observedAt, turn.session)
  }

  function MentionRecord(m: Mention): Record {
    map["name" := m.name, "kind" := m.kind]
  }

  /** What is remembered of a mention before its facts: its kind. */
  function MentionObservation(turn: Turn, m: Mention, v: Vector): Observation {
    Observation(m.kind, MentionRecord(m), "kind", Some(m.kind), Since(turn.observedAt),
                TurnProvenance(turn), Corrects, None, v)
  }

  function FactObservation(turn: Turn, m: Mention, f: ExtractedFact, v: Vector): Observation {
    Observation(m.kind, MentionRecord(m), f.attribute, f.value, Since(f.validFrom),
                TurnProvenance(turn), f.supersession, None, v)
  }

  function Recorded(out: Ingested, r: Remembered): Ingested {
    out.(entities := out.entities + [r.entity],
         assertions := out.assertions + [r.assertion],
         reviews := out.reviews + (if r.CreatedPendingReview? then r.review else []))
  }

  // ----- the four loops

  /** How far a turn has got: the state, the record so far, and the refusal that stopped it. */
  datatype Progress = Progress(state: State, out: Ingested, stopped: Option<EngineError>)

  ghost function AfterMentions(rs: Ruleset, s: State, turn: Turn, x: Extraction, p: Prepared, n: nat): Progress
    requires CountsMatch(x, p) && n <= |x.mentions|
  {
    if n == 0 then Progress(s, Ingested([], [], [], []), None)
    else
      var so := AfterMentions(rs, s, turn, x, p, n - 1);
      if so.stopped.Some? then so
      else
        var r := Remember(rs, so.state, MentionObservation(turn, x.mentions[n - 1], p.mentions[n - 1]));
        match r.result
        case Err(e) => Progress(r.state, so.out, Some(e))
        case Ok(remembered) => Progress(r.state, Recorded(so.out, remembered), None)
  }

  ghost predicate Placed(x: Extraction, out: Ingested) {
    |out.entities| == |x.mentions|
  }

  ghost function AfterFacts(turn: Turn, x: Extraction, p: Prepared, from: Progress, n: nat): Progress
    requires CountsMatch(x, p) && n <= |x.facts| && ValidExtraction(x)
    requires from.stopped.None? ==> Placed(x, from.out)
    ensures AfterFacts(turn, x, p, from, n).out.entities == from.out.entities
    ensures from.stopped.Some? ==> AfterFacts(turn, x, p, from, n).stopped.Some?
  {
    if n == 0 then from
    else
      var so := AfterFacts(turn, x, p, from, n - 1);
      if so.stopped.Some? then so
      else
        assert x.facts[n - 1] in x.facts;
        var f := x.facts[n - 1];
        var r := Write(so.state, so.out.entities[f.subject],
                       FactObservation(turn, x.mentions[f.subject], f, p.facts[n - 1]));
        match r.result
        case Err(e) => Progress(r.state, so.out, Some(e))
        case Ok(id) => Progress(r.state, so.out.(assertions := so.out.assertions + [id]), None)
  }

  function RelationTriple(x: Extraction, entities: seq<StableId>, r: Relation): Triple
    requires r.subject < |entities| && r.object_ < |entities|
  {
    Triple(entities[r.subject], r.predicate_, entities[r.object_])
  }

  ghost function AfterRelations(turn: Turn, x: Extraction, from: Progress, n: nat): Progress
    requires n <= |x.relations| && ValidExtraction(x)
    requires from.stopped.None? ==> Placed(x, from.out)
    ensures AfterRelations(turn, x, from, n).out == from.out
    ensures from.stopped.Some? ==> AfterRelations(turn, x, from, n).stopped.Some?
  {
    if n == 0 then from
    else
      var so := AfterRelations(turn, x, from, n - 1);
      if so.stopped.Some? then so
      else
        assert x.relations[n - 1] in x.relations;
        var r := x.relations[n - 1];
        var w := Relate(so.state, RelationTriple(x, so.out.entities, r), Since(r.validFrom), TurnProvenance(turn));
        Progress(w.state, so.out, if w.result.Err? then Some(w.result.error) else None)
  }

  /** Objects this extraction asserted for a subject and predicate, whichever mention named them. */
  function Spared(x: Extraction, entities: seq<StableId>, subject: StableId, name: string): set<StableId>
    requires forall r :: r in x.relations ==> r.subject < |entities| && r.object_ < |entities|
  {
    set r | r in x.relations && entities[r.subject] == subject && r.predicate_ == name :: entities[r.object_]
  }

  /** The other objects of that predicate in force when the closure speaks, as far as is known now. */
  function Doomed(s: State, spared: set<StableId>, subject: StableId, c: Closure): seq<StableId> {
    InOrder(set t | t in s.store.edges && t.subject == subject && t.predicate_ == c.predicate_
                 && InForce(s.store.edges[t], c.at, MAX_TIME) && t.object_ !in spared :: t.object_)
  }

  function AfterClosing(turn: Turn, c: Closure, subject: StableId, doomed: seq<StableId>, from: Progress, n: nat)
    : Progress
    requires n <= |doomed|
  {
    if n == 0 then from
    else
      var so := AfterClosing(turn, c, subject, doomed, from, n - 1);
      if so.stopped.Some? then so
      else
        var t := Triple(subject, c.predicate_, doomed[n - 1]);
        var w := Unrelate(so.state, t, c.at, InferredProvenance(turn));
        if w.result.Err? then Progress(w.state, so.out, Some(w.result.error))
        else Progress(w.state,
               so.out.(closed := so.out.closed + [Closed(subject, c.predicate_, doomed[n - 1], c.because)]), None)
  }

  ghost function AfterClosures(turn: Turn, x: Extraction, entities: seq<StableId>, from: Progress, n: nat): Progress
    requires n <= |x.closures| && ValidExtraction(x) && |entities| == |x.mentions|
  {
    if n == 0 then from
    else
      var so := AfterClosures(turn, x, entities, from, n - 1);
      if so.stopped.Some? then so
      else
        assert x.closures[n - 1] in x.closures;
        var c := x.closures[n - 1];
        var subject := entities[c.subject];
        var doomed := Doomed(so.state, Spared(x, entities, subject, c.predicate_), subject, c);
        AfterClosing(turn, c, subject, doomed, so, |doomed|)
  }

  // ----- the turn

  /** The first complaint in the order the checks run. */
  function FirstComplaint(x: Extraction): Option<EngineError> {
    var names := NameComplaintFrom(x.mentions, 0);
    if names.Some? then names
    else
      var facts := FactComplaintFrom(x.facts, |x.mentions|, 0);
      if facts.Some? then facts
      else
        var relations := RelationComplaintFrom(x.relations, |x.mentions|, 0);
        if relations.Some? then relations
        else ClosureComplaintFrom(x.closures, |x.mentions|, 0)
  }

  function NameComplaintFrom(ms: seq<Mention>, i: nat): Option<EngineError>
    requires i <= |ms|
    decreases |ms| - i
  {
    if i == |ms| then None
    else if Blank(ms[i].name) then Some(NamelessMention(i))
    else NameComplaintFrom(ms, i + 1)
  }

  function FactComplaintFrom(fs: seq<ExtractedFact>, mentions: nat, i: nat): Option<EngineError>
    requires i <= |fs|
    decreases |fs| - i
  {
    if i == |fs| then None
    else if FactComplaint(fs[i], mentions).Some? then FactComplaint(fs[i], mentions)
    else FactComplaintFrom(fs, mentions, i + 1)
  }

  function RelationComplaintFrom(rs: seq<Relation>, mentions: nat, i: nat): Option<EngineError>
    requires i <= |rs|
    decreases |rs| - i
  {
    if i == |rs| then None
    else if RelationComplaint(rs[i], mentions).Some? then RelationComplaint(rs[i], mentions)
    else RelationComplaintFrom(rs, mentions, i + 1)
  }

  function ClosureComplaintFrom(cs: seq<Closure>, mentions: nat, i: nat): Option<EngineError>
    requires i <= |cs|
    decreases |cs| - i
  {
    if i == |cs| then None
    else if ClosureComplaint(cs[i], mentions).Some? then ClosureComplaint(cs[i], mentions)
    else ClosureComplaintFrom(cs, mentions, i + 1)
  }

  lemma {:induction false} NamesComplete(ms: seq<Mention>, i: nat)
    requires i <= |ms|
    ensures NameComplaintFrom(ms, i).None? <==> forall k :: i <= k < |ms| ==> !Blank(ms[k].name)
    decreases |ms| - i
  {
    if i < |ms| { NamesComplete(ms, i + 1); }
  }

  lemma {:induction false} FactsComplete(fs: seq<ExtractedFact>, mentions: nat, i: nat)
    requires i <= |fs|
    ensures FactComplaintFrom(fs, mentions, i).None? <==> forall k :: i <= k < |fs| ==> fs[k].subject < mentions
    decreases |fs| - i
  {
    if i < |fs| { FactsComplete(fs, mentions, i + 1); }
  }

  lemma {:induction false} RelationsComplete(rs: seq<Relation>, mentions: nat, i: nat)
    requires i <= |rs|
    ensures RelationComplaintFrom(rs, mentions, i).None? <==>
      forall k :: i <= k < |rs| ==> RelationComplaint(rs[k], mentions).None?
    decreases |rs| - i
  {
    if i < |rs| { RelationsComplete(rs, mentions, i + 1); }
  }

  lemma {:induction false} ClosuresComplete(cs: seq<Closure>, mentions: nat, i: nat)
    requires i <= |cs|
    ensures ClosureComplaintFrom(cs, mentions, i).None? <==> forall k :: i <= k < |cs| ==> cs[k].subject < mentions
    decreases |cs| - i
  {
    if i < |cs| { ClosuresComplete(cs, mentions, i + 1); }
  }

  /** Nothing is refused up front exactly when the extraction is well-formed. */
  lemma NoComplaintIffValid(x: Extraction)
    ensures FirstComplaint(x).None? <==> ValidExtraction(x)
  {
    NamesComplete(x.mentions, 0);
    FactsComplete(x.facts, |x.mentions|, 0);
    RelationsComplete(x.relations, |x.mentions|, 0);
    ClosuresComplete(x.closures, |x.mentions|, 0);
    if ValidExtraction(x) {
      forall k | 0 <= k < |x.mentions| ensures !Blank(x.mentions[k].name) { assert x.mentions[k] in x.mentions; }
      forall k | 0 <= k < |x.facts| ensures x.facts[k].subject < |x.mentions| { assert x.facts[k] in x.facts; }
      forall k | 0 <= k < |x.relations| ensures RelationComplaint(x.relations[k], |x.mentions|).None? {
        assert x.relations[k] in x.relations;
      }
      forall k | 0 <= k < |x.closures| ensures x.closures[k].subject < |x.mentions| {
        assert x.closures[k] in x.closures;
      }
    }
    if FirstComplaint(x).None? {
      forall r | r in x.relations
        ensures r.subject < |x.mentions| && r.object_ < |x.mentions| && r.subject != r.object_
      {
        var k :| 0 <= k < |x.relations| && x.relations[k] == r;
        assert RelationComplaint(x.relations[k], |x.mentions|).None?;
      }
    }
  }

  /** The first complaint is about something that is there: which mention has no name, which index is out of range. */
  lemma ComplaintIsTrue(x: Extraction)
    ensures match FirstComplaint(x)
      case None => ValidExtraction(x)
      case Some(NamelessMention(i)) =>
        i < |x.mentions| && Blank(x.mentions[i].name) && forall k :: 0 <= k < i ==> !Blank(x.mentions[k].name)
      case Some(BadMentionIndex(m)) =>
        && AllNamed(x) && m >= |x.mentions|
        && ((exists f :: f in x.facts && f.subject == m)
            || (exists r :: r in x.relations && (r.subject == m || r.object_ == m))
            || exists c :: c in x.closures && c.subject == m)
      case Some(SelfRelation(m)) =>
        AllNamed(x) && m < |x.mentions| && exists r :: r in x.relations && r.subject == m && r.object_ == m
      case Some(_) => false
  {
    NoComplaintIffValid(x);
    NameComplaintIsTrue(x.mentions, 0);
    FactComplaintIsTrue(x.facts, |x.mentions|, 0);
    RelationComplaintIsTrue(x.relations, |x.mentions|, 0);
    ClosureComplaintIsTrue(x.closures, |x.mentions|, 0);
  }

  /** A turn complained of, or given the wrong number of vectors, is refused before anything is touched. */
  lemma RefusedUpFront(rs: Ruleset, s: State, turn: Turn, x: Extraction, p: Prepared)
    ensures !ValidExtraction(x) ==>
      FirstComplaint(x).Some? && Ingest(rs, s, turn, x, p) == Step(s, Err(FirstComplaint(x).value))
    ensures ValidExtraction(x) && (|p.mentions| != |x.mentions| || |p.facts| != |x.facts|) ==>
      Ingest(rs, s, turn, x, p) == Step(s, Err(Mismatched))
  {
    hide AfterMentions, AfterFacts, AfterRelations, AfterClosures, FirstComplaint, ValidExtraction;
    NoComplaintIffValid(x);
  }

  predicate AllNamed(x: Extraction) {
    forall k :: 0 <= k < |x.mentions| ==> !Blank(x.mentions[k].name)
  }

  lemma {:induction false} NameComplaintIsTrue(ms: seq<Mention>, i: nat)
    requires i <= |ms| && forall k :: 0 <= k < i ==> !Blank(ms[k].name)
    ensures match NameComplaintFrom(ms, i)
      case None => forall k :: 0 <= k < |ms| ==> !Blank(ms[k].name)
      case Some(NamelessMention(n)) =>
        n < |ms| && Blank(ms[n].name) && forall k :: 0 <= k < n ==> !Blank(ms[k].name)
      case Some(_) => false
    decreases |ms| - i
  {
    if i < |ms| && !Blank(ms[i].name) { NameComplaintIsTrue(ms, i + 1); }
  }

  lemma {:induction false} FactComplaintIsTrue(fs: seq<ExtractedFact>, mentions: nat, i: nat)
    requires i <= |fs|
    ensures match FactComplaintFrom(fs, mentions, i)
      case None => true
      case Some(BadMentionIndex(m)) => m >= mentions && exists f :: f in fs && f.subject == m
      case Some(_) => false
    decreases |fs| - i
  {
    if i < |fs| {
      assert fs[i] in fs;
      FactComplaintIsTrue(fs, mentions, i + 1);
    }
  }

  lemma {:induction false} RelationComplaintIsTrue(rs: seq<Relation>, mentions: nat, i: nat)
    requires i <= |rs|
    ensures match RelationComplaintFrom(rs, mentions, i)
      case None => true
      case Some(BadMentionIndex(m)) =>
        m >= mentions && exists r :: r in rs && (r.subject == m || r.object_ == m)
      case Some(SelfRelation(m)) => m < mentions && exists r :: r in rs && r.subject == m && r.object_ == m
      case Some(_) => false
    decreases |rs| - i
  {
    if i < |rs| {
      assert rs[i] in rs;
      RelationComplaintIsTrue(rs, mentions, i + 1);
    }
  }

  lemma {:induction false} ClosureComplaintIsTrue(cs: seq<Closure>, mentions: nat, i: nat)
    requires i <= |cs|
    ensures match ClosureComplaintFrom(cs, mentions, i)
      case None => true
      case Some(BadMentionIndex(m)) => m >= mentions && exists c :: c in cs && c.subject == m
      case Some(_) => false
    decreases |cs| - i
  {
    if i < |cs| {
      assert cs[i] in cs;
      ClosureComplaintIsTrue(cs, mentions, i + 1);
    }
  }

  lemma {:induction false} MentionsPlaced(rs: Ruleset, s: State, turn: Turn, x: Extraction, p: Prepared, n: nat)
    requires CountsMatch(x, p) && n <= |x.mentions|
    ensures var so := AfterMentions(rs, s, turn, x, p, n);
      so.stopped.None? ==> |so.out.entities| == n && so.out.closed == []
  {
    hide Remember, MentionObservation, CountsMatch;
    if n > 0 { MentionsPlaced(rs, s, turn, x, p, n - 1); }
  }

  ghost function Ingest(rs: Ruleset, s: State, turn: Turn, x: Extraction, p: Prepared): Step<Ingested> {
    match FirstComplaint(x)
    case Some(e) => Step(s, Err(e))
    case None =>
      if !CountsMatch(x, p) then Step(s, Err(Mismatched))
      else
        NoComplaintIffValid(x);
        MentionsPlaced(rs, s, turn, x, p, |x.mentions|);
        var mentioned := AfterMentions(rs, s, turn, x, p, |x.mentions|);
        var stated := AfterFacts(turn, x, p, mentioned, |x.facts|);
        var related := AfterRelations(turn, x, stated, |x.relations|);
        if related.stopped.Some? then Step(related.state, Err(related.stopped.value))
        else
          var done := AfterClosures(turn, x, related.out.entities, related, |x.closures|);
          if done.stopped.Some? then Step(done.state, Err(done.stopped.value))
          else Step(done.state, Ok(done.out))
  }
}
