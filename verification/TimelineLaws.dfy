/**
 What the `ValidInterval` timeline means: its shape, and its answer at every instant,
 stated from the claims alone.
 */
module TimelineLaws {
  import opened Core
  import opened Ordering
  import opened Survivorship

  // ----- the declarative reading

  datatype Answer = NoCoverage | Holding(held: Held) | Refuses

  /** No claim begun by `t` is later than `c` on (valid from, heard). */
  ghost predicate Governs(cs: seq<Candidate>, c: Candidate, t: Timestamp) {
    && c in cs
    && c.valid.from <= t
    && forall d :: d in cs && d.valid.from <= t ==> AtMost(ClaimKey(d), ClaimKey(c))
  }

  ghost predicate GovernorsAgree(cs: seq<Candidate>, t: Timestamp) {
    forall c, d :: Governs(cs, c, t) && Governs(cs, d, t) ==> c.value == d.value
  }

  ghost function Meaning(cs: seq<Candidate>, t: Timestamp): Answer
    requires AllClaims(cs)
  {
    if !exists c :: Governs(cs, c, t) then NoCoverage
    else if !GovernorsAgree(cs, t) then Refuses
    else
      var c :| Governs(cs, c, t);
      Holding(HeldOf(c))
  }

  function AnswerOf(r: Result<Option<Held>, Refused>): Answer {
    match r
    case Err(_) => Refuses
    case Ok(None) => NoCoverage
    case Ok(Some(held)) => Holding(held)
  }

  // ----- reading segments from the latest back

  function ReadSpan(span: Span): Result<Option<Held>, Refused> {
    match span
    case Holds(held) => Ok(Some(held))
    case Contested(_, _) => Err(NothingOrders)
  }

  function ReadSegments(segments: seq<Segment>, t: Timestamp): Result<Option<Held>, Refused> {
    if segments == [] then Ok(None)
    else
      var last := segments[|segments| - 1];
      if last.from <= t then ReadSpan(last.span)
      else ReadSegments(segments[..|segments| - 1], t)
  }

  ghost predicate AscendingSegments(segments: seq<Segment>) {
    forall i, j :: 0 <= i < j < |segments| ==> segments[i].from < segments[j].from
  }

  lemma {:induction false} ReadSegmentsFindsOne(segments: seq<Segment>, t: Timestamp) returns (i: int)
    requires AscendingSegments(segments)
    ensures -1 <= i < |segments|
    ensures forall j :: 0 <= j <= i ==> segments[j].from <= t
    ensures forall j :: i < j < |segments| ==> t < segments[j].from
    ensures ReadSegments(segments, t) == if i < 0 then Ok(None) else ReadSpan(segments[i].span)
  {
    if segments == [] {
      i := -1;
    } else {
      var n := |segments| - 1;
      if segments[n].from <= t {
        i := n;
      } else {
        i := ReadSegmentsFindsOne(segments[..n], t);
      }
    }
  }

  /** The tile covering `t` is the last one to have opened by then. */
  lemma CoveringTile(segments: seq<Segment>, i: nat, k: nat, t: Timestamp)
    requires i < |segments| && k < |segments| && Tile(segments)[k].valid.Contains(t)
    requires forall j :: 0 <= j <= i ==> segments[j].from <= t
    requires forall j :: i < j < |segments| ==> t < segments[j].from
    ensures k == i
  {
    assert k + 1 < |segments| ==> t < segments[k + 1].from;
  }

  lemma OnlyTileCovers(segments: seq<Segment>, i: int, t: Timestamp)
    requires -1 <= i < |segments|
    requires forall j :: 0 <= j <= i ==> segments[j].from <= t
    requires forall j :: i < j < |segments| ==> t < segments[j].from
    ensures forall k :: 0 <= k < |segments| ==> (Tile(segments)[k].valid.Contains(t) <==> k == i)
  {
    forall k | 0 <= k < |segments| && Tile(segments)[k].valid.Contains(t) ensures k == i {
      if i >= 0 { CoveringTile(segments, i, k, t); }
    }
  }

  lemma OnlyOneFound(facts: seq<Fact>, i: int, t: Timestamp)
    requires -1 <= i < |facts|
    requires forall k :: 0 <= k < |facts| ==> (facts[k].valid.Contains(t) <==> k == i)
    ensures FindFact(facts, t) == if i < 0 then None else Some(facts[i])
  {
    hide Interval.Contains;
    var found := FindFact(facts, t);
    if i >= 0 {
      assert facts[i] in facts;
    }
    if found.Some? {
      var k :| 0 <= k < |facts| && facts[k] == found.value;
    }
  }

  lemma HeldAtReadsSegments(segments: seq<Segment>, t: Timestamp)
    requires AscendingSegments(segments)
    ensures HeldAt(Timeline(Tile(segments)), t) == ReadSegments(segments, t)
  {
    var i := ReadSegmentsFindsOne(segments, t);
    OnlyTileCovers(segments, i, t);
    hide ReadSegments, FindFact, AscendingSegments, Interval.Contains;
    OnlyOneFound(Tile(segments), i, t);
  }

  // ----- coalescing

  ghost predicate NothingRestated(segments: seq<Segment>) {
    forall i, j {:trigger segments[i], segments[j]} ::
      0 <= i && j == i + 1 && j < |segments| && segments[j].span.Holds? ==>
      segments[j].span != segments[i].span
  }

  lemma {:induction false} CoalesceShape(openings: seq<Segment>)
    requires AscendingSegments(openings)
    ensures AscendingSegments(Coalesce(openings))
    ensures NothingRestated(Coalesce(openings))
    ensures forall s :: s in Coalesce(openings) ==> s in openings
    ensures openings != [] ==> Coalesce(openings) != [] && Coalesce(openings)[0] == openings[0]
  {
    if openings != [] {
      var front, last := openings[..|openings| - 1], openings[|openings| - 1];
      assert openings == front + [last];
      CoalesceShape(front);
      CoalesceStep(front, last);
      hide Coalesce;
      OpensLater(Coalesce(front), front, last);
    }
  }

  lemma OpensLater(earlier: seq<Segment>, front: seq<Segment>, last: Segment)
    requires AscendingSegments(front + [last]) && AscendingSegments(earlier)
    requires forall s :: s in earlier ==> s in front
    ensures AscendingSegments(earlier + [last])
  {
    forall i | 0 <= i < |earlier| ensures earlier[i].from < last.from {
      assert earlier[i] in earlier;
      var k :| 0 <= k < |front| && front[k] == earlier[i];
      assert (front + [last])[k].from < (front + [last])[|front|].from;
    }
  }

  /** Coalescing a restated value changes no answer. */
  lemma {:induction false} CoalesceKeepsAnswers(openings: seq<Segment>, t: Timestamp)
    requires AscendingSegments(openings)
    ensures ReadSegments(Coalesce(openings), t) == ReadSegments(openings, t)
  {
    if openings != [] {
      var front, last := openings[..|openings| - 1], openings[|openings| - 1];
      CoalesceKeepsAnswers(front, t);
      CoalesceShape(front);
      var earlier := Coalesce(front);
      if Restates(earlier, last.span) {
        assert earlier[|earlier| - 1] in front;
      } else {
        assert (earlier + [last])[..|earlier|] == earlier;
      }
    }
  }

  // ----- building the timeline a moment at a time

  lemma CoalesceStep(front: seq<Segment>, last: Segment)
    ensures Coalesce(front + [last]) ==
      if Restates(Coalesce(front), last.span) then Coalesce(front) else Coalesce(front) + [last]
  {
    assert (front + [last])[..|front|] == front;
  }

  ghost function CoalescedTo(claims: seq<Candidate>, moments: seq<Timestamp>, k: nat): seq<Segment>
    requires AllClaims(claims) && forall m :: m in moments ==> IsMoment(claims, m)
    requires k <= |moments|
  {
    Coalesce(Openings(claims, moments)[..k])
  }

  lemma OpenNext(claims: seq<Candidate>, moments: seq<Timestamp>, k: nat)
    requires AllClaims(claims) && forall m :: m in moments ==> IsMoment(claims, m)
    requires k < |moments|
    ensures IsMoment(claims, moments[k])
    ensures CoalescedTo(claims, moments, k + 1) ==
      var earlier, span := CoalescedTo(claims, moments, k), Opening(claims, moments[k]);
      if Restates(earlier, span) then earlier else earlier + [Segment(span, moments[k])]
  {
    hide Opening;
    var openings := Openings(claims, moments);
    OpeningAt(claims, moments, k);
    assert openings[..k + 1] == openings[..k] + [openings[k]];
    CoalesceStep(openings[..k], openings[k]);
  }

  lemma OpeningAt(claims: seq<Candidate>, moments: seq<Timestamp>, k: nat)
    requires AllClaims(claims) && forall m :: m in moments ==> IsMoment(claims, m)
    requires k < |moments|
    ensures IsMoment(claims, moments[k])
    ensures Openings(claims, moments)[k] == Segment(Opening(claims, moments[k]), moments[k])
  {
    assert moments[k] in moments;
  }

  lemma {:induction false} FilterTwice(from: Timestamp, at: Timestamp, cs: seq<Candidate>)
    ensures Filter(HeardOn(at), Filter(OpensAt(from), cs)) == Filter(OpensAtHeardAt(from, at), cs)
  {
    if cs != [] {
      FilterTwice(from, at, cs[1..]);
      if OpensAt(from)(cs[0]) {
        var rest := Filter(OpensAt(from), cs[1..]);
        assert ([cs[0]] + rest)[1..] == rest;
      }
    }
  }

  // ----- one moment

  /** The group an opening is decided by is exactly the claims governing from that moment. */
  lemma OpeningMeaning(cs: seq<Candidate>, from: Timestamp, t: Timestamp)
    requires AllClaims(cs) && IsMoment(cs, from) && from <= t
    requires forall c :: c in cs && c.valid.from <= t ==> c.valid.from <= from
    ensures AnswerOf(ReadSpan(Opening(cs, from))) == Meaning(cs, t)
  {
    var at, latest := OpeningGroup(cs, from, t);
    GroupMeaning(cs, latest, t);
  }

  lemma GroupMeaning(cs: seq<Candidate>, latest: seq<Candidate>, t: Timestamp)
    requires AllClaims(cs) && AllClaims(latest) && latest != []
    requires forall c :: c in latest <==> Governs(cs, c, t)
    ensures FirstSeen(Helds(latest)) != []
    ensures Meaning(cs, t) ==
      if |FirstSeen(Helds(latest))| == 1 then Holding(FirstSeen(Helds(latest))[0]) else Refuses
  {
    var hs := Helds(latest);
    FirstSeenSingle(hs);
    assert latest[0] in latest;
    if |FirstSeen(hs)| == 1 {
      forall c | Governs(cs, c, t) ensures c.value == latest[0].value {
        var i :| 0 <= i < |latest| && latest[i] == c;
        assert hs[i] in hs;
      }
    } else {
      var h :| h in hs && h != hs[0];
      var i :| 0 <= i < |hs| && hs[i] == h;
      assert latest[i] in latest;
      assert Governs(cs, latest[i], t) && Governs(cs, latest[0], t);
    }
  }

  lemma OpeningGroup(cs: seq<Candidate>, from: Timestamp, t: Timestamp)
    returns (at: Timestamp, latest: seq<Candidate>)
    requires AllClaims(cs) && IsMoment(cs, from) && from <= t
    requires forall c :: c in cs && c.valid.from <= t ==> c.valid.from <= from
    ensures latest == Filter(OpensAtHeardAt(from, at), cs) && latest != []
    ensures Opening(cs, from) ==
      var values := FirstSeen(Helds(latest));
      if |values| == 1 then Holds(values[0]) else Contested(values, at)
    ensures forall c :: c in latest <==> Governs(cs, c, t)
  {
    var group := Filter(OpensAt(from), cs);
    var w :| w in cs && w.valid.from == from;
    assert w in group;
    at := LatestHeard(group);
    latest := Filter(OpensAtHeardAt(from, at), cs);
    var g :| g in group && g.Heard() == at;
    assert g in latest;
    forall c ensures c in latest <==> Governs(cs, c, t) {
      if c in latest {
        forall d | d in cs && d.valid.from <= t ensures AtMost(ClaimKey(d), ClaimKey(c)) {
          if d.valid.from == from { assert d in group; }
        }
      }
      if Governs(cs, c, t) {
        assert AtMost(ClaimKey(g), ClaimKey(c));
        assert c in group;
      }
    }
  }

  // ----- the main results

  lemma OpeningsAscend(cs: seq<Candidate>) returns (ms: seq<Timestamp>, openings: seq<Segment>)
    requires AllClaims(cs)
    ensures ms == Moments(cs) && openings == Openings(cs, ms)
    ensures AscendingTimes(ms) && AscendingSegments(openings)
    ensures forall c :: c in cs ==> c.valid.from in ms
    ensures cs == [] <==> ms == []
    ensures forall m :: m in ms ==> IsMoment(cs, m)
  {
    ms := Moments(cs);
    openings := Openings(cs, ms);
    forall c | c in cs ensures c.valid.from in ms {
      assert IsMoment(cs, c.valid.from);
    }
    if cs != [] { assert cs[0] in cs; }
    if ms != [] { assert ms[0] in ms; }
  }

  /** At every instant the timeline answers what the claims, read declaratively, mean. */
  lemma TimelineAnswers(cs: seq<Candidate>, t: Timestamp)
    requires AllClaims(cs)
    ensures AnswerOf(HeldAt(Timeline(TimelineOf(cs)), t)) == Meaning(cs, t)
  {
    var ms, openings := OpeningsAscend(cs);
    CoalesceShape(openings);
    HeldAtReadsSegments(Coalesce(openings), t);
    CoalesceKeepsAnswers(openings, t);
    OpeningsAnswer(cs, ms, openings, t);
  }

  lemma OpeningsAnswer(cs: seq<Candidate>, ms: seq<Timestamp>, openings: seq<Segment>, t: Timestamp)
    requires AllClaims(cs) && forall m :: m in ms ==> IsMoment(cs, m)
    requires openings == Openings(cs, ms) && AscendingSegments(openings)
    requires forall c :: c in cs ==> c.valid.from in ms
    ensures AnswerOf(ReadSegments(openings, t)) == Meaning(cs, t)
  {
    var i := ReadSegmentsFindsOne(openings, t);
    LatestMoment(cs, ms, openings, i, t);
    if i < 0 {
      assert forall c :: !Governs(cs, c, t);
    } else {
      assert ms[i] in ms;
      OpeningMeaning(cs, ms[i], t);
    }
  }

  lemma LatestMoment(cs: seq<Candidate>, ms: seq<Timestamp>, openings: seq<Segment>, i: int, t: Timestamp)
    requires |openings| == |ms| && -1 <= i < |ms|
    requires forall j :: 0 <= j < |ms| ==> openings[j].from == ms[j]
    requires AscendingSegments(openings)
    requires forall j :: i < j < |openings| ==> t < openings[j].from
    requires forall c :: c in cs ==> c.valid.from in ms
    ensures forall c :: c in cs && c.valid.from <= t ==> i >= 0 && c.valid.from <= ms[i]
  {
    forall c | c in cs && c.valid.from <= t ensures i >= 0 && c.valid.from <= ms[i] {
      var k :| 0 <= k < |ms| && ms[k] == c.valid.from;
      assert openings[k].from == c.valid.from;
      assert k <= i;
      if k < i { assert openings[k].from < openings[i].from; }
    }
  }

  ghost predicate WellTiled(facts: seq<Fact>) {
    && (forall i, j :: 0 <= i < j < |facts| ==> facts[i].valid.from < facts[j].valid.from)
    && (forall i, j {:trigger facts[i], facts[j]} :: 0 <= i && j == i + 1 && j < |facts| ==>
          facts[i].valid.to == Some(facts[j].valid.from))
    && (facts != [] ==> facts[|facts| - 1].valid.to.None?)
    && (forall i, j {:trigger facts[i], facts[j]} ::
          0 <= i && j == i + 1 && j < |facts| && facts[j].span.Holds? ==> facts[j].span != facts[i].span)
  }

  /**
   The shape: strictly increasing, tiling from the least `valid.from` with no gap and no
   overlap, open-ended only at the end, and with no value restated in adjacent spans.
   */
  lemma TimelineShape(cs: seq<Candidate>)
    requires AllClaims(cs)
    ensures WellTiled(TimelineOf(cs))
    ensures TimelineOf(cs) == [] <==> cs == []
    ensures forall c :: c in cs ==> TimelineOf(cs)[0].valid.from <= c.valid.from
    ensures cs != [] ==> IsMoment(cs, TimelineOf(cs)[0].valid.from)
  {
    var ms, openings := OpeningsAscend(cs);
    CoalesceShape(openings);
    TileShape(Coalesce(openings));
    if cs != [] {
      assert ms[0] in ms;
      forall c | c in cs ensures ms[0] <= c.valid.from {
        var k :| 0 <= k < |ms| && ms[k] == c.valid.from;
      }
    }
  }

  lemma TileShape(segments: seq<Segment>)
    requires AscendingSegments(segments) && NothingRestated(segments)
    ensures WellTiled(Tile(segments))
  {
  }

  /** Exactly one span covers each instant from the first moment on, and none covers any before. */
  lemma TimelineTiles(cs: seq<Candidate>, t: Timestamp)
    requires AllClaims(cs) && cs != []
    ensures var facts := TimelineOf(cs);
      && facts != []
      && (t < facts[0].valid.from ==> forall i :: 0 <= i < |facts| ==> !facts[i].valid.Contains(t))
      && (facts[0].valid.from <= t ==>
            exists i :: 0 <= i < |facts| && facts[i].valid.Contains(t)
              && forall j :: 0 <= j < |facts| && facts[j].valid.Contains(t) ==> j == i)
  {
    var ms, openings := OpeningsAscend(cs);
    CoalesceShape(openings);
    OneTileCovers(Coalesce(openings), t);
  }

  lemma OneTileCovers(segments: seq<Segment>, t: Timestamp)
    requires AscendingSegments(segments) && segments != []
    ensures var facts := Tile(segments);
      && (t < facts[0].valid.from ==> forall i :: 0 <= i < |facts| ==> !facts[i].valid.Contains(t))
      && (facts[0].valid.from <= t ==>
            exists i :: 0 <= i < |facts| && facts[i].valid.Contains(t)
              && forall j :: 0 <= j < |facts| && facts[j].valid.Contains(t) ==> j == i)
  {
    var facts := Tile(segments);
    var i := ReadSegmentsFindsOne(segments, t);
    OnlyTileCovers(segments, i, t);
    if facts[0].valid.from <= t {
      assert facts[i].valid.Contains(t);
    }
  }

  /** What has not begun to hold by an instant has no say in it. */
  lemma LaterClaimsAreSilent(cs: seq<Candidate>, more: seq<Candidate>, t: Timestamp)
    requires AllClaims(cs) && AllClaims(more) && forall c :: c in more ==> t < c.valid.from
    ensures AllClaims(cs + more) && Meaning(cs + more, t) == Meaning(cs, t)
  {
    assert forall c :: Governs(cs + more, c, t) <==> Governs(cs, c, t);
    if exists c :: Governs(cs, c, t) {
      var c :| Governs(cs, c, t);
      var d :| Governs(cs + more, d, t);
      if GovernorsAgree(cs, t) {
        assert c.value == d.value;
      }
    }
  }

  /** A claim whose clocks no other claim begun by then reaches decides the instant. */
  lemma LatestClaimDecides(cs: seq<Candidate>, last: Candidate, t: Timestamp)
    requires AllClaims(cs) && last in cs && last.valid.from <= t
    requires forall c :: c in cs && c.valid.from <= t && c != last ==> Precedes(ClaimKey(c), ClaimKey(last))
    ensures Meaning(cs, t) == Holding(HeldOf(last))
  {
    assert Governs(cs, last, t);
    assert forall c :: Governs(cs, c, t) ==> c == last;
  }

  /** The meaning reads the set of claims, so no reordering or repetition can change it. */
  lemma MeaningIsOrderFree(a: seq<Candidate>, b: seq<Candidate>, t: Timestamp)
    requires AllClaims(a) && AllClaims(b)
    requires forall c :: c in a <==> c in b
    ensures Meaning(a, t) == Meaning(b, t)
  {
    assert forall c :: Governs(a, c, t) <==> Governs(b, c, t);
    if exists c :: Governs(a, c, t) {
      var c :| Governs(a, c, t);
      var d :| Governs(b, d, t);
      if GovernorsAgree(a, t) {
        assert c.value == d.value;
      }
    }
  }

  // ----- what a contested span names

  /** Somebody heard last about that moment says it. */
  ghost predicate SaidAt(cs: seq<Candidate>, from: Timestamp, at: Timestamp, h: Held) {
    exists c :: c in cs && c.valid.from == from && c.provenance.observedAt == at && c.value == Asserts(h)
  }

  /**
   A contested fact names every value of the claims heard last about its moment, once each, more than
   one of them, and when those were heard.
   */
  lemma ContestedNames(cs: seq<Candidate>, f: Fact, h: Held)
    requires AllClaims(cs) && f in TimelineOf(cs) && f.span.Contested?
    ensures |f.span.values| > 1
    ensures forall i, j :: 0 <= i < j < |f.span.values| ==> f.span.values[i] != f.span.values[j]
    ensures h in f.span.values <==> SaidAt(cs, f.valid.from, f.span.observedAt, h)
    ensures forall c :: c in cs && c.valid.from == f.valid.from ==> c.provenance.observedAt <= f.span.observedAt
  {
    FactsAreOpenings(cs, f);
    hide TimelineOf;
    OpeningNames(cs, f.valid.from, h);
  }

  lemma FactsAreOpenings(cs: seq<Candidate>, f: Fact)
    requires AllClaims(cs) && f in TimelineOf(cs)
    ensures IsMoment(cs, f.valid.from) && f.span == Opening(cs, f.valid.from)
  {
    hide Opening, Moments, Coalesce, Tile, AscendingSegments, NothingRestated;
    var ms, openings := OpeningsAscend(cs);
    CoalesceShape(openings);
    var segments := Coalesce(openings);
    var i :| 0 <= i < |Tile(segments)| && Tile(segments)[i] == f;
    assert segments[i] in openings;
    var k :| 0 <= k < |openings| && openings[k] == segments[i];
    assert ms[k] in ms;
  }

  lemma OpeningNames(cs: seq<Candidate>, from: Timestamp, h: Held)
    requires AllClaims(cs) && IsMoment(cs, from) && Opening(cs, from).Contested?
    ensures var span := Opening(cs, from);
      && |span.values| > 1
      && (forall i, j :: 0 <= i < j < |span.values| ==> span.values[i] != span.values[j])
      && (h in span.values <==> SaidAt(cs, from, span.observedAt, h))
      && (forall c :: c in cs && c.valid.from == from ==> c.provenance.observedAt <= span.observedAt)
  {
    hide Filter, FirstSeen, LatestHeard;
    var group := Filter(OpensAt(from), cs);
    var c :| c in cs && c.valid.from == from;
    assert c in group;
    var at := LatestHeard(group);
    var last :| last in group && last.Heard() == at;
    var latest := Filter(OpensAtHeardAt(from, at), cs);
    assert last in latest;
    var hs := Helds(latest);
    FirstSeenSingle(hs);
    assert forall d :: d in cs && d.valid.from == from ==> d in group;
    if h in hs {
      var i :| 0 <= i < |hs| && hs[i] == h;
      assert latest[i] in latest;
    }
    if SaidAt(cs, from, at, h) {
      var d :| d in cs && d.valid.from == from && d.provenance.observedAt == at && d.value == Asserts(h);
      assert d in latest;
      var i :| 0 <= i < |latest| && latest[i] == d;
      assert hs[i] in hs;
    }
  }
}
