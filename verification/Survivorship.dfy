/**
 Survivorship: what a set of competing assertions amounts to.

 This module holds the data types both implementations share and, for every strategy,
 the function the implementations are proved against.
 */
module Survivorship {
  import opened Core
  import opened Ordering

  /** What survives: a value, or a positive claim that there is none. */
  datatype Held = Value(text: string) | Absent

  /** What one candidate said; `Silent` said nothing and competes with no one. */
  datatype Asserted = Asserts(held: Held) | Silent

  datatype Candidate = Candidate(value: Asserted, provenance: Provenance, valid: Interval) {
    function Heard(): Timestamp { provenance.observedAt }
  }

  datatype Span = Holds(held: Held) | Contested(values: seq<Held>, observedAt: Timestamp)

  datatype Fact = Fact(span: Span, valid: Interval)

  datatype Outcome = Survivor(held: Option<Held>) | Timeline(facts: seq<Fact>)

  datatype Refused = NoMostRecent | UnlistedSource | EmptyPriority | NothingOrders

  datatype Strategy =
    | MostComplete
    | LongestValue
    | MajorityVote
    | ConfidenceMajority
    | FirstNonNull
    | UnanimousOrNull
    | MostRecent
    | SourcePriority(order: seq<Source>)
    | ValidInterval

  // ----- claims

  predicate IsClaim(c: Candidate) { c.value.Asserts? }

  predicate AllClaims(cs: seq<Candidate>) {
    forall c :: c in cs ==> IsClaim(c)
  }

  /** Assertions only: silence never competes. */
  function Claims(cs: seq<Candidate>): (r: seq<Candidate>)
    ensures AllClaims(r)
    ensures forall c :: c in r <==> c in cs && IsClaim(c)
  {
    Filter(IsClaim, cs)
  }

  /** The value or absence a claim holds. */
  function HeldOf(c: Candidate): Held
    requires IsClaim(c)
  {
    c.value.held
  }

  function Helds(cs: seq<Candidate>): (r: seq<Held>)
    requires AllClaims(cs)
    ensures |r| == |cs|
    ensures forall i :: 0 <= i < |cs| ==> cs[i] in cs && r[i] == HeldOf(cs[i])
  {
    seq(|cs|, i requires 0 <= i < |cs| => assert cs[i] in cs; HeldOf(cs[i]))
  }

  /** The distinct values, in order of first appearance. */
  function FirstSeen(hs: seq<Held>): (r: seq<Held>)
    ensures forall h :: h in r <==> h in hs
    ensures forall i, j :: 0 <= i < j < |r| ==> r[i] != r[j]
  {
    if hs == [] then []
    else
      var front, last := hs[..|hs| - 1], hs[|hs| - 1];
      var seen := FirstSeen(front);
      assert hs == front + [last];
      if last in seen then seen else seen + [last]
  }

  lemma {:induction false} FirstSeenSingle(hs: seq<Held>)
    requires hs != []
    ensures |FirstSeen(hs)| >= 1
    ensures |FirstSeen(hs)| == 1 <==> forall h :: h in hs ==> h == hs[0]
    ensures FirstSeen(hs)[0] == hs[0]
  {
    var front, last := hs[..|hs| - 1], hs[|hs| - 1];
    assert hs == front + [last];
    if front == [] {
      assert FirstSeen(front) == [];
    } else {
      FirstSeenSingle(front);
      assert front[0] == hs[0];
      assert last in FirstSeen(front) <==> last in front;
      if |FirstSeen(hs)| == 1 {
        forall h | h in hs ensures h == hs[0] {
          assert h in FirstSeen(hs);
        }
      } else {
        assert FirstSeen(hs)[1] in FirstSeen(hs) && FirstSeen(hs)[1] != FirstSeen(hs)[0];
      }
    }
  }

  function LatestHeard(cs: seq<Candidate>): (at: Timestamp)
    requires cs != []
    ensures exists c :: c in cs && c.Heard() == at
    ensures forall c :: c in cs ==> c.Heard() <= at
  {
    if |cs| == 1 then
      assert cs[0] in cs;
      cs[0].Heard()
    else
      var rest := LatestHeard(cs[1..]);
      assert cs == [cs[0]] + cs[1..];
      if cs[0].Heard() > rest then cs[0].Heard() else rest
  }

  lemma LatestHeardIsOfMembers(a: seq<Candidate>, b: seq<Candidate>)
    requires a != [] && b != [] && forall c :: c in a <==> c in b
    ensures LatestHeard(a) == LatestHeard(b)
  {
  }

  // ----- ValidInterval

  function ClaimKey(c: Candidate): Key { (c.valid.from, c.Heard()) }

  function OpensAt(from: Timestamp): Candidate -> bool {
    (c: Candidate) => c.valid.from == from
  }

  function OpensAtHeardAt(from: Timestamp, at: Timestamp): Candidate -> bool {
    (c: Candidate) => c.valid.from == from && c.Heard() == at
  }

  predicate IsMoment(cs: seq<Candidate>, from: Timestamp) {
    exists c :: c in cs && c.valid.from == from
  }

  /** What opens at `from`: the values of the latest-heard claims about that moment. */
  function Opening(cs: seq<Candidate>, from: Timestamp): Span
    requires AllClaims(cs) && IsMoment(cs, from)
  {
    var group := Filter(OpensAt(from), cs);
    assert group != [] by {
      var c :| c in cs && c.valid.from == from;
      assert c in group;
    }
    var at := LatestHeard(group);
    var values := FirstSeen(Helds(Filter(OpensAtHeardAt(from, at), cs)));
    if |values| == 1 then Holds(values[0]) else Contested(values, at)
  }

  /** One span with the moment it opens; where it closes is the next segment's business. */
  datatype Segment = Segment(span: Span, from: Timestamp)

  ghost predicate AscendingTimes(ms: seq<Timestamp>) {
    forall i, j :: 0 <= i < j < |ms| ==> ms[i] < ms[j]
  }

  /** Whether the next opening is absorbed: both settled, on one value. */
  predicate Restates(segments: seq<Segment>, span: Span) {
    span.Holds? && segments != [] && segments[|segments| - 1].span == span
  }

  function Coalesce(openings: seq<Segment>): seq<Segment> {
    if openings == [] then []
    else
      var last := openings[|openings| - 1];
      var earlier := Coalesce(openings[..|openings| - 1]);
      if Restates(earlier, last.span) then earlier else earlier + [last]
  }

  function Openings(cs: seq<Candidate>, ms: seq<Timestamp>): (r: seq<Segment>)
    requires AllClaims(cs) && forall m :: m in ms ==> IsMoment(cs, m)
    ensures |r| == |ms|
    ensures forall i :: 0 <= i < |ms| ==> r[i].from == ms[i]
  {
    seq(|ms|, i requires 0 <= i < |ms| => assert ms[i] in ms; Segment(Opening(cs, ms[i]), ms[i]))
  }

  /** The openings as spans: each ends at its successor's start, the last never. */
  function Tile(segments: seq<Segment>): (facts: seq<Fact>)
    ensures |facts| == |segments|
    ensures forall i :: 0 <= i < |facts| ==>
      facts[i].span == segments[i].span && facts[i].valid.from == segments[i].from
    ensures forall i, j {:trigger facts[i], segments[j]} :: 0 <= i && j == i + 1 && j < |facts| ==>
      facts[i].valid.to == Some(segments[j].from)
    ensures facts != [] ==> facts[|facts| - 1].valid.to == None
  {
    seq(|segments|, i requires 0 <= i < |segments| =>
      Fact(segments[i].span,
           Interval(segments[i].from,
                    if i + 1 < |segments| then Some(segments[i + 1].from) else None)))
  }

  function Froms(cs: seq<Candidate>): (r: seq<Timestamp>)
    ensures |r| == |cs|
    ensures forall i :: 0 <= i < |cs| ==> r[i] == cs[i].valid.from
  {
    seq(|cs|, i requires 0 <= i < |cs| => cs[i].valid.from)
  }

  /** `Vec::dedup`: drop an element equal to its predecessor. */
  function Dedup(ts: seq<Timestamp>): (r: seq<Timestamp>)
    ensures forall t :: t in r <==> t in ts
    ensures ts != [] ==> r != [] && r[|r| - 1] == ts[|ts| - 1]
  {
    if ts == [] then []
    else
      var front, last := ts[..|ts| - 1], ts[|ts| - 1];
      assert ts == front + [last];
      var r := Dedup(front);
      if r != [] && r[|r| - 1] == last then r else r + [last]
  }

  lemma {:induction false} DedupAscends(ts: seq<Timestamp>)
    requires forall i, j :: 0 <= i < j < |ts| ==> ts[i] <= ts[j]
    ensures AscendingTimes(Dedup(ts))
  {
    if ts != [] {
      var front, last := ts[..|ts| - 1], ts[|ts| - 1];
      DedupAscends(front);
      forall t | t in Dedup(front) ensures t <= last {
        var k :| 0 <= k < |front| && front[k] == t;
        assert ts[k] == t;
      }
    }
  }

  /** The distinct moments at which some claim begins to hold, ascending. */
  function Moments(cs: seq<Candidate>): (ms: seq<Timestamp>)
    requires AllClaims(cs)
    ensures AscendingTimes(ms)
    ensures forall m :: m in ms <==> IsMoment(cs, m)
  {
    var ordered := SortBy(ClaimKey, cs);
    SortSorts(ClaimKey, cs);
    MultisetMembers(ordered, cs);
    var froms := Froms(ordered);
    assert forall i, j :: 0 <= i < j < |froms| ==> froms[i] <= froms[j] by {
      forall i, j | 0 <= i < j < |froms| ensures froms[i] <= froms[j] {
        assert AtMost(ClaimKey(ordered[i]), ClaimKey(ordered[j]));
      }
    }
    DedupAscends(froms);
    assert forall m :: m in froms <==> IsMoment(cs, m) by {
      forall m ensures m in froms <==> IsMoment(cs, m) {
        if m in froms {
          var k :| 0 <= k < |froms| && froms[k] == m;
          assert ordered[k] in cs;
        }
        if IsMoment(cs, m) {
          var c :| c in cs && c.valid.from == m;
          assert c in ordered;
          var k :| 0 <= k < |ordered| && ordered[k] == c;
          assert froms[k] == m;
        }
      }
    }
    Dedup(froms)
  }

  function TimelineOf(cs: seq<Candidate>): seq<Fact>
    requires AllClaims(cs)
  {
    Tile(Coalesce(Openings(cs, Moments(cs))))
  }

  // ----- reading an outcome at an instant

  function FindFact(facts: seq<Fact>, t: Timestamp): (r: Option<Fact>)
    ensures r.Some? ==> r.value in facts && r.value.valid.Contains(t)
    ensures r.None? ==> forall f :: f in facts ==> !f.valid.Contains(t)
  {
    if facts == [] then None
    else if facts[0].valid.Contains(t) then Some(facts[0])
    else FindFact(facts[1..], t)
  }

  function HeldAt(outcome: Outcome, t: Timestamp): Result<Option<Held>, Refused> {
    match outcome
    case Survivor(held) => Ok(held)
    case Timeline(facts) =>
      match FindFact(facts, t)
      case None => Ok(None)
      case Some(Fact(Holds(held), _)) => Ok(Some(held))
      case Some(Fact(Contested(_, _), _)) => Err(NothingOrders)
  }

  // ----- the strategies without a time axis

  function LatestValues(cs: seq<Candidate>): seq<Held>
    requires AllClaims(cs) && cs != []
  {
    FirstSeen(Helds(Filter(HeardOn(LatestHeard(cs)), cs)))
  }

  function HeardOn(at: Timestamp): Candidate -> bool {
    (c: Candidate) => c.Heard() == at
  }

  function MostRecentOf(cs: seq<Candidate>): Result<Outcome, Refused>
    requires AllClaims(cs)
  {
    if cs == [] then Ok(Survivor(None))
    else
      var values := LatestValues(cs);
      assert values != [] by {
        var c :| c in cs && c.Heard() == LatestHeard(cs);
        var group := Filter(HeardOn(LatestHeard(cs)), cs);
        assert c in group;
        FirstSeenSingle(Helds(group));
      }
      if |values| > 1 then Err(NoMostRecent) else Ok(Survivor(Some(values[0])))
  }

  /** The first position of a maximum. */
  function FirstMax(xs: seq<nat>): (i: nat)
    requires xs != []
    ensures i < |xs|
    ensures forall j :: 0 <= j < |xs| ==> xs[j] <= xs[i]
    ensures forall j :: 0 <= j < i ==> xs[j] < xs[i]
  {
    if |xs| == 1 then 0
    else
      var front := xs[..|xs| - 1];
      var i := FirstMax(front);
      assert forall j :: 0 <= j < |front| ==> front[j] == xs[j];
      if xs[|xs| - 1] > xs[i] then |xs| - 1 else i
  }

  function Measure(h: Held, size: string -> nat): nat {
    match h case Value(text) => size(text) case Absent => 0
  }

  function Sizes(hs: seq<Held>, size: string -> nat): (r: seq<nat>)
    ensures |r| == |hs|
    ensures forall i :: 0 <= i < |hs| ==> r[i] == Measure(hs[i], size)
  {
    seq(|hs|, i requires 0 <= i < |hs| => Measure(hs[i], size))
  }

  /** The longest value, ties to the first seen; `size` says what length means. */
  function LongestOf(cs: seq<Candidate>, size: string -> nat): Option<Held>
    requires AllClaims(cs)
  {
    if cs == [] then None
    else
      var hs := Helds(cs);
      Some(hs[FirstMax(Sizes(hs, size))])
  }

  function Count(h: Held, hs: seq<Held>): nat {
    multiset(hs)[h]
  }

  function Counts(distinct: seq<Held>, hs: seq<Held>): (r: seq<nat>)
    ensures |r| == |distinct|
    ensures forall i :: 0 <= i < |distinct| ==> r[i] == Count(distinct[i], hs)
  {
    seq(|distinct|, i requires 0 <= i < |distinct| => Count(distinct[i], hs))
  }

  /** The most frequent value, count ties to the first seen. */
  function PluralityOf(cs: seq<Candidate>): Option<Held>
    requires AllClaims(cs)
  {
    if cs == [] then None
    else
      var hs := Helds(cs);
      var distinct := FirstSeen(hs);
      FirstSeenSingle(hs);
      Some(distinct[FirstMax(Counts(distinct, hs))])
  }

  predicate Unanimous(cs: seq<Candidate>) {
    forall c, d :: c in cs && d in cs ==> c.value == d.value
  }

  function From(source: Source): Candidate -> bool {
    (c: Candidate) => c.provenance.source == source
  }

  predicate AllListed(cs: seq<Candidate>, order: seq<Source>) {
    forall c :: c in cs ==> c.provenance.source in order
  }

  /** Most recent within the first source of `order` that asserted anything. */
  function FirstTier(cs: seq<Candidate>, order: seq<Source>): Result<Outcome, Refused>
    requires AllClaims(cs)
  {
    if order == [] then Ok(Survivor(None))
    else
      var tier := Filter(From(order[0]), cs);
      if tier != [] then MostRecentOf(tier) else FirstTier(cs, order[1..])
  }

  // ----- what every strategy amounts to, on claims

  /** `size` is the only thing the documented rules leave open: what "longest" counts. */
  function Resolved(cs: seq<Candidate>, strategy: Strategy, size: string -> nat)
    : Result<Outcome, Refused>
    requires AllClaims(cs)
  {
    match strategy
    case MostRecent => MostRecentOf(cs)
    case ValidInterval => Ok(Timeline(TimelineOf(cs)))
    case MostComplete => Ok(Survivor(LongestOf(cs, size)))
    case LongestValue => Ok(Survivor(LongestOf(cs, size)))
    case MajorityVote => Ok(Survivor(PluralityOf(cs)))
    case ConfidenceMajority => Ok(Survivor(PluralityOf(cs)))
    case FirstNonNull => Ok(Survivor(if cs == [] then None else Some(Helds(cs)[0])))
    case UnanimousOrNull =>
      Ok(Survivor(if cs != [] && Unanimous(cs) then Some(Helds(cs)[0]) else None))
    case SourcePriority(order) =>
      if !AllListed(cs, order) then Err(UnlistedSource) else FirstTier(cs, order)
  }
}
