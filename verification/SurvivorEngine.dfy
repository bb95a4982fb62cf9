/**
 The survivorship the engine runs on every read.

 Unanimity is answered before any strategy is consulted, and length is counted in characters.
 */
module SurvivorEngine {
  import opened Core
  import opened Ordering
  import opened Survivorship
  import opened TimelineLaws

  /** `chars().count()`. */
  function Characters(s: string): nat { |s| }

  /** What the engine answers: the documented rule, behind the unanimity early-out. */
  function EngineResolved(cs: seq<Candidate>, strategy: Strategy): Result<Outcome, Refused>
    requires AllClaims(cs)
  {
    if strategy.ValidInterval? then Ok(Timeline(TimelineOf(cs)))
    else if cs != [] && Unanimous(cs) then Ok(Survivor(Some(Helds(cs)[0])))
    else if cs != [] && strategy == SourcePriority([]) then Err(EmptyPriority)
    else if cs == [] then Ok(Survivor(None))
    else Resolved(cs, strategy, Characters)
  }

  method Merge(candidates: seq<Candidate>, strategy: Strategy) returns (r: Result<Outcome, Refused>)
    ensures r == EngineResolved(Claims(candidates), strategy)
  {
    hide MostRecentOf, TimelineOf, LongestOf, PluralityOf, FirstTier, Filter;
    if strategy.ValidInterval? {
      var facts := BuildTimeline(candidates);
      return Ok(Timeline(facts));
    }
    var asserted := Claims(candidates);
    if asserted == [] {
      return Ok(Survivor(None));
    }
    assert asserted[0] in asserted;
    if Unanimous(asserted) {
      return Ok(Survivor(Some(HeldOf(asserted[0]))));
    }
    match strategy {
      case MostComplete => return Ok(Survivor(LongestOf(asserted, Characters)));
      case LongestValue => return Ok(Survivor(LongestOf(asserted, Characters)));
      case MajorityVote => return Ok(Survivor(PluralityOf(asserted)));
      case ConfidenceMajority => return Ok(Survivor(PluralityOf(asserted)));
      case FirstNonNull => return Ok(Survivor(Some(HeldOf(asserted[0]))));
      case UnanimousOrNull => return Ok(Survivor(None));
      case MostRecent => r := LatestWins(asserted);
      case SourcePriority(order) => r := PriorityWins(asserted, order);
    }
  }

  /** The latest observation's value; a contradictory tie refuses. */
  method LatestWins(asserted: seq<Candidate>) returns (r: Result<Outcome, Refused>)
    requires AllClaims(asserted) && asserted != []
    ensures r == MostRecentOf(asserted)
  {
    var latest := LatestHeard(asserted);
    var group := Filter(HeardOn(latest), asserted);
    var w :| w in asserted && w.Heard() == latest;
    assert w in group;
    var atLatest := Helds(group);
    FirstSeenSingle(atLatest);
    if forall h :: h in atLatest ==> h == atLatest[0] {
      return Ok(Survivor(Some(atLatest[0])));
    }
    return Err(NoMostRecent);
  }

  method PriorityWins(asserted: seq<Candidate>, order: seq<Source>) returns (r: Result<Outcome, Refused>)
    requires AllClaims(asserted) && asserted != []
    ensures r ==
      if order == [] then Err(EmptyPriority) else Resolved(asserted, SourcePriority(order), Characters)
  {
    if order == [] {
      return Err(EmptyPriority);
    }
    if !AllListed(asserted, order) {
      return Err(UnlistedSource);
    }
    for i := 0 to |order|
      invariant FirstTier(asserted, order) == FirstTier(asserted, order[i..])
    {
      assert order[i..][0] == order[i] && order[i..][1..] == order[i + 1..];
      var tier := Filter(From(order[i]), asserted);
      if tier != [] {
        r := LatestWins(tier);
        return;
      }
    }
    return Ok(Survivor(None));
  }

  /**
   The two-pointer timeline: one pass over the sorted claims, a group of equal `valid.from`
   at a time, then a second pass closing each span where the next opens.
   */
  method BuildTimeline(candidates: seq<Candidate>) returns (facts: seq<Fact>)
    ensures facts == TimelineOf(Claims(candidates))
  {
    var claims := Claims(candidates);
    if claims == [] {
      assert SortBy(ClaimKey, claims) == [];
      assert Moments(claims) == Dedup([]);
      return [];
    }
    var asserted := SortBy(ClaimKey, claims);
    GroupsStart(claims, asserted, Moments(claims));
    var segments := GroupAll(claims, asserted, Moments(claims));
    facts := CloseAll(segments);
  }

  method GroupAll(ghost claims: seq<Candidate>, asserted: seq<Candidate>, ghost moments: seq<Timestamp>)
    returns (segments: seq<Segment>)
    requires AllClaims(claims) && asserted == SortBy(ClaimKey, claims)
    requires SortedClaims(claims, asserted, moments) && AtGroup(asserted, moments, 0, 0)
    ensures segments == Coalesce(Openings(claims, moments))
  {
    hide Opening, Filter, SortBy, Coalesce;
    segments := [];
    NothingCoalesced(claims, moments);
    var i := 0;
    ghost var k := 0;
    while i < |asserted|
      invariant AtGroup(asserted, moments, i, k)
      invariant segments == CoalescedTo(claims, moments, k)
    {
      var from := asserted[i].valid.from;
      var j := i;
      while j < |asserted| && asserted[j].valid.from == from
        invariant i <= j <= |asserted|
        invariant forall n :: i <= n < j ==> asserted[n].valid.from == from
      {
        j := j + 1;
      }
      NextGroup(claims, asserted, moments, i, j, k);
      var span := GroupSpan(claims, asserted, i, j);
      OpenNext(claims, moments, k);
      i, k := j, k + 1;
      if !Restates(segments, span) {
        segments := segments + [Segment(span, from)];
      }
    }
    assert Openings(claims, moments)[..k] == Openings(claims, moments);
  }

  lemma NothingCoalesced(claims: seq<Candidate>, moments: seq<Timestamp>)
    requires AllClaims(claims) && forall m :: m in moments ==> IsMoment(claims, m)
    ensures CoalescedTo(claims, moments, 0) == []
  {
    assert Openings(claims, moments)[..0] == [];
  }

  /** `i` is where the group of `moments[k]` begins; everything before belongs to earlier moments. */
  ghost predicate AtGroup(asserted: seq<Candidate>, moments: seq<Timestamp>, i: nat, k: nat) {
    && i <= |asserted| && k <= |moments|
    && (i == |asserted| <==> k == |moments|)
    && (i < |asserted| ==> asserted[i].valid.from == moments[k])
    && (forall n :: 0 <= n < i && k < |moments| ==> asserted[n].valid.from < moments[k])
  }

  ghost predicate SortedClaims(claims: seq<Candidate>, asserted: seq<Candidate>, moments: seq<Timestamp>) {
    && SortedBy(ClaimKey, asserted)
    && AscendingTimes(moments)
    && (forall c :: c in asserted <==> c in claims)
    && (forall m :: m in moments <==> IsMoment(claims, m))
  }

  lemma GroupsStart(claims: seq<Candidate>, asserted: seq<Candidate>, moments: seq<Timestamp>)
    requires AllClaims(claims) && claims != []
    requires asserted == SortBy(ClaimKey, claims) && moments == Moments(claims)
    ensures SortedClaims(claims, asserted, moments)
    ensures AtGroup(asserted, moments, 0, 0)
  {
    SortSorts(ClaimKey, claims);
    MultisetMembers(asserted, claims);
    assert asserted[0] in claims;
    var from := asserted[0].valid.from;
    assert from in moments;
    var n :| 0 <= n < |moments| && moments[n] == from;
    assert moments[0] in moments;
    var c :| c in claims && c.valid.from == moments[0];
    var m :| 0 <= m < |asserted| && asserted[m] == c;
    if m > 0 { assert AtMost(ClaimKey(asserted[0]), ClaimKey(asserted[m])); }
  }

  lemma NextGroup(claims: seq<Candidate>, asserted: seq<Candidate>, moments: seq<Timestamp>, i: nat, j: nat, k: nat)
    requires SortedClaims(claims, asserted, moments) && AtGroup(asserted, moments, i, k)
    requires i < j <= |asserted|
    requires forall n :: i <= n < j ==> asserted[n].valid.from == asserted[i].valid.from
    requires j < |asserted| ==> asserted[j].valid.from != asserted[i].valid.from
    ensures AtGroup(asserted, moments, j, k + 1)
  {
    var from := asserted[i].valid.from;
    if j < |asserted| {
      assert AtMost(ClaimKey(asserted[i]), ClaimKey(asserted[j]));
      assert asserted[j] in claims;
      assert asserted[j].valid.from in moments;
      var n :| 0 <= n < |moments| && moments[n] == asserted[j].valid.from;
      assert n > k;
      assert moments[k + 1] <= moments[n];
    }
    if k + 1 < |moments| {
      assert moments[k + 1] in moments;
      var c :| c in claims && c.valid.from == moments[k + 1];
      var m :| 0 <= m < |asserted| && asserted[m] == c;
      assert moments[k] < moments[k + 1];
      assert m >= j;
      if m > j { assert AtMost(ClaimKey(asserted[j]), ClaimKey(asserted[m])); }
    }
  }

  lemma GroupIsFilter(asserted: seq<Candidate>, i: nat, j: nat)
    requires SortedBy(ClaimKey, asserted) && i < j <= |asserted|
    requires forall n :: i <= n < j ==> asserted[n].valid.from == asserted[i].valid.from
    requires forall n :: 0 <= n < i ==> asserted[n].valid.from != asserted[i].valid.from
    requires j < |asserted| ==> asserted[j].valid.from != asserted[i].valid.from
    ensures Filter(OpensAt(asserted[i].valid.from), asserted) == asserted[i..j]
  {
    hide Filter;
    var keep := OpensAt(asserted[i].valid.from);
    var before, group, after := asserted[..i], asserted[i..j], asserted[j..];
    forall c | c in before ensures !keep(c) {
      var n :| 0 <= n < |before| && before[n] == c;
    }
    forall c | c in group ensures keep(c) {
      var n :| 0 <= n < |group| && group[n] == c;
    }
    forall c | c in after ensures !keep(c) {
      var n :| 0 <= n < |after| && after[n] == c;
      assert AtMost(ClaimKey(asserted[i]), ClaimKey(asserted[j]));
      if n > 0 { assert AtMost(ClaimKey(asserted[j]), ClaimKey(asserted[j + n])); }
    }
    FilterMiddle(keep, before, group, after);
    InThree(asserted, i, j);
  }

  lemma InThree<T>(s: seq<T>, i: nat, j: nat)
    requires i <= j <= |s|
    ensures s == s[..i] + (s[i..j] + s[j..])
  {
    assert s[i..] == s[i..j] + s[j..];
  }

  lemma FilterMiddle(keep: Candidate -> bool, before: seq<Candidate>, group: seq<Candidate>, after: seq<Candidate>)
    requires forall c :: c in before || c in after ==> !keep(c)
    requires forall c :: c in group ==> keep(c)
    ensures Filter(keep, before + (group + after)) == group
  {
    FilterAppend(keep, before, group + after);
    FilterAppend(keep, group, after);
    FilterNone(keep, before);
    FilterAll(keep, group);
    FilterNone(keep, after);
  }

  /** The span a group opens: sorted, so its last element carries the greatest `observed_at`. */
  method GroupSpan(ghost claims: seq<Candidate>, asserted: seq<Candidate>, i: nat, j: nat)
    returns (span: Span)
    requires AllClaims(claims) && asserted == SortBy(ClaimKey, claims) && i < j <= |asserted|
    requires forall n :: i <= n < j ==> asserted[n].valid.from == asserted[i].valid.from
    requires forall n :: 0 <= n < i ==> asserted[n].valid.from != asserted[i].valid.from
    requires j < |asserted| ==> asserted[j].valid.from != asserted[i].valid.from
    ensures IsMoment(claims, asserted[i].valid.from)
    ensures span == Opening(claims, asserted[i].valid.from)
  {
    hide LatestHeard, Filter, FirstSeen, SortBy;
    ghost var from := asserted[i].valid.from;
    var group := asserted[i..j];
    var observedAt := group[|group| - 1].Heard();
    GroupDecides(claims, asserted, i, j);
    var values := FirstSeen(Helds(Filter(HeardOn(observedAt), group)));
    if |values| == 1 {
      span := Holds(values[0]);
    } else {
      span := Contested(values, observedAt);
    }
  }

  lemma GroupDecides(claims: seq<Candidate>, asserted: seq<Candidate>, i: nat, j: nat)
    requires AllClaims(claims) && asserted == SortBy(ClaimKey, claims) && i < j <= |asserted|
    requires forall n :: i <= n < j ==> asserted[n].valid.from == asserted[i].valid.from
    requires forall n :: 0 <= n < i ==> asserted[n].valid.from != asserted[i].valid.from
    requires j < |asserted| ==> asserted[j].valid.from != asserted[i].valid.from
    ensures IsMoment(claims, asserted[i].valid.from)
    ensures AllClaims(asserted[i..j])
    ensures var from, at := asserted[i].valid.from, asserted[j - 1].Heard();
      && Filter(OpensAt(from), claims) != []
      && at == LatestHeard(Filter(OpensAt(from), claims))
      && Filter(HeardOn(at), asserted[i..j]) == Filter(OpensAtHeardAt(from, at), claims)
  {
    var from, at := asserted[i].valid.from, asserted[j - 1].Heard();
    SortSorts(ClaimKey, claims);
    MultisetMembers(asserted, claims);
    assert asserted[i] in claims;
    GroupIsFilter(asserted, i, j);
    LastIsLatest(asserted, i, j);
    assert asserted[i] in Filter(OpensAt(from), claims);
    LatestHeardIsOfMembers(asserted[i..j], Filter(OpensAt(from), claims));
    assert OneKey(ClaimKey, OpensAtHeardAt(from, at));
    SortIsStable(ClaimKey, OpensAtHeardAt(from, at), claims);
    FilterTwice(from, at, asserted);
  }

  lemma LastIsLatest(asserted: seq<Candidate>, i: nat, j: nat)
    requires SortedBy(ClaimKey, asserted) && i < j <= |asserted|
    requires forall n :: i <= n < j ==> asserted[n].valid.from == asserted[i].valid.from
    ensures LatestHeard(asserted[i..j]) == asserted[j - 1].Heard()
  {
    var group := asserted[i..j];
    forall c | c in group ensures c.Heard() <= asserted[j - 1].Heard() {
      var n :| 0 <= n < |group| && group[n] == c;
      if i + n < j - 1 { assert AtMost(ClaimKey(asserted[i + n]), ClaimKey(asserted[j - 1])); }
    }
    assert group[|group| - 1] in group;
  }

  /** The second pass, in place: every span but the last gets its successor's start for an end. */
  method CloseAll(segments: seq<Segment>) returns (facts: seq<Fact>)
    ensures facts == Tile(segments)
  {
    facts := seq(|segments|, n requires 0 <= n < |segments| => Fact(segments[n].span, Since(segments[n].from)));
    var n := 0;
    while n + 1 < |facts|
      invariant |facts| == |segments|
      invariant 0 <= n <= |segments| && (|segments| > 0 ==> n < |segments|)
      invariant forall m :: n <= m < |facts| ==> facts[m] == Fact(segments[m].span, Since(segments[m].from))
      invariant forall m :: 0 <= m < n ==> facts[m] == Tile(segments)[m]
    {
      facts := facts[n := facts[n].(valid := Interval(facts[n].valid.from, Some(facts[n + 1].valid.from)))];
      n := n + 1;
    }
    assert facts == Tile(segments);
  }
}
