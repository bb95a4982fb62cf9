/**
 The oracle, one loop a strategy.

 Each strategy's loop is proved against the function `Survivorship` gives for it. Length is
 counted in bytes here, as `str::len` does.
 */
module Reference {
  import opened Core
  import opened Ordering
  import opened Survivorship
  import opened TimelineLaws

  function Utf8Width(c: char): nat {
    if c as int < 0x80 then 1
    else if c as int < 0x800 then 2
    else if c as int < 0x1_0000 then 3
    else 4
  }

  /** `str::len`: bytes of the UTF-8 encoding. */
  function Bytes(s: string): nat {
    if s == "" then 0 else Utf8Width(s[0]) + Bytes(s[1..])
  }

  method Merge(candidates: seq<Candidate>, strategy: Strategy) returns (r: Result<Outcome, Refused>)
    ensures r == Resolved(Claims(candidates), strategy, Bytes)
  {
    hide MostRecentOf, TimelineOf, LongestOf, PluralityOf, FirstTier, Bytes;
    match strategy {
      case MostRecent => r := MostRecentWins(candidates);
      case ValidInterval => r := BuildTimeline(candidates);
      case MostComplete => r := MostCompleteWins(candidates);
      case LongestValue => r := MostCompleteWins(candidates);
      case MajorityVote => r := MajorityWins(candidates);
      case ConfidenceMajority => r := MajorityWins(candidates);
      case FirstNonNull =>
        var claims := Claims(candidates);
        r := Ok(Survivor(if claims == [] then None else Some(Helds(claims)[0])));
      case UnanimousOrNull =>
        var claims := Claims(candidates);
        r := Ok(Survivor(if claims != [] && Unanimous(claims) then Some(Helds(claims)[0]) else None));
      case SourcePriority(order) => r := PriorityWins(candidates, order);
    }
  }

  /** Collect the distinct values of a group of claims, first seen first. */
  method Distinct(group: seq<Candidate>) returns (values: seq<Held>)
    requires AllClaims(group)
    ensures values == FirstSeen(Helds(group))
  {
    values := [];
    ghost var hs := Helds(group);
    for i := 0 to |group|
      invariant values == FirstSeen(hs[..i])
    {
      assert group[i] in group;
      var h := HeldOf(group[i]);
      assert hs[..i + 1][..i] == hs[..i];
      if h !in values {
        values := values + [h];
      }
    }
    assert hs[..|group|] == hs;
  }

  method MostRecentWins(candidates: seq<Candidate>) returns (r: Result<Outcome, Refused>)
    ensures r == MostRecentOf(Claims(candidates))
  {
    var claims := Claims(candidates);
    if claims == [] {
      return Ok(Survivor(None));
    }
    var latest := LatestHeard(claims);
    var distinct := Distinct(Filter(HeardOn(latest), claims));
    if |distinct| > 1 {
      return Err(NoMostRecent);
    }
    return Ok(Survivor(Some(distinct[0])));
  }

  method BuildTimeline(candidates: seq<Candidate>) returns (r: Result<Outcome, Refused>)
    ensures r == Ok(Timeline(TimelineOf(Claims(candidates))))
  {
    var claims := Claims(candidates);
    if claims == [] {
      NoMoments(claims);
      return Ok(Timeline([]));
    }
    var ordered := SortBy(ClaimKey, claims);
    var moments := Dedup(Froms(ordered));
    assert moments == Moments(claims);
    var facts := OpenAll(claims, ordered, moments);
    return Ok(Timeline(facts));
  }

  lemma NoMoments(claims: seq<Candidate>)
    requires claims == []
    ensures TimelineOf(claims) == []
  {
    assert SortBy(ClaimKey, claims) == [];
    assert Moments(claims) == Dedup([]);
  }

  method OpenAll(ghost claims: seq<Candidate>, ordered: seq<Candidate>, moments: seq<Timestamp>)
    returns (facts: seq<Fact>)
    requires AllClaims(claims) && forall m :: m in moments ==> IsMoment(claims, m)
    requires ordered == SortBy(ClaimKey, claims)
    ensures facts == Tile(Coalesce(Openings(claims, moments)))
  {
    facts := [];
    for k := 0 to |moments|
      invariant facts == Tile(CoalescedTo(claims, moments, k))
    {
      assert moments[k] in moments;
      var span := OpenSpan(claims, ordered, moments[k]);
      facts := OpenFact(facts, CoalescedTo(claims, moments, k), span, moments[k]);
      OpenNext(claims, moments, k);
    }
    assert Openings(claims, moments)[..|moments|] == Openings(claims, moments);
  }

  /** One turn of the loop: a restatement extends, anything else closes the last span and opens. */
  method OpenFact(facts: seq<Fact>, ghost earlier: seq<Segment>, span: Span, from: Timestamp)
    returns (r: seq<Fact>)
    requires facts == Tile(earlier)
    ensures r == Tile(if Restates(earlier, span) then earlier else earlier + [Segment(span, from)])
  {
    if span.Holds? && facts != [] && facts[|facts| - 1].span == span {
      return facts;
    }
    TileOneMore(earlier, Segment(span, from));
    r := facts;
    if facts != [] {
      var prev := facts[|facts| - 1];
      r := facts[|facts| - 1 := prev.(valid := Interval(prev.valid.from, Some(from)))];
    }
    r := r + [Fact(span, Since(from))];
  }

  /** Opening one more segment closes the last fact where it begins. */
  lemma TileOneMore(earlier: seq<Segment>, next: Segment)
    ensures var facts, n := Tile(earlier), |earlier|;
      Tile(earlier + [next]) ==
      (if facts == [] then []
       else facts[n - 1 := facts[n - 1].(valid := Interval(facts[n - 1].valid.from, Some(next.from)))])
      + [Fact(next.span, Since(next.from))]
  {
    var all := earlier + [next];
    forall i | 0 <= i < |earlier| ensures all[i] == earlier[i] {}
    var facts := Tile(earlier);
    var closed := if facts == [] then []
      else facts[|facts| - 1 := facts[|facts| - 1].(valid := Interval(facts[|facts| - 1].valid.from, Some(next.from)))];
    forall i | 0 <= i < |all| ensures Tile(all)[i] == (closed + [Fact(next.span, Since(next.from))])[i] {
      if i < |facts| { assert facts[i] == Tile(earlier)[i]; }
    }
  }

  /** What opens at one moment, found in the sorted claims. */
  method OpenSpan(ghost claims: seq<Candidate>, ordered: seq<Candidate>, from: Timestamp)
    returns (span: Span)
    requires AllClaims(claims) && IsMoment(claims, from)
    requires ordered == SortBy(ClaimKey, claims)
    ensures span == Opening(claims, from)
  {
    MultisetMembers(ordered, claims);
    var atMoment := Filter(OpensAt(from), ordered);
    var w :| w in ordered && w.valid.from == from;
    assert w in atMoment;
    var latest := LatestHeard(atMoment);
    LatestHeardIsOfMembers(atMoment, Filter(OpensAt(from), claims));
    assert OneKey(ClaimKey, OpensAtHeardAt(from, latest));
    SortIsStable(ClaimKey, OpensAtHeardAt(from, latest), claims);
    FilterTwice(from, latest, ordered);
    var values := Distinct(Filter(HeardOn(latest), atMoment));
    if |values| == 1 {
      span := Holds(values[0]);
    } else {
      span := Contested(values, latest);
    }
  }

  method MostCompleteWins(candidates: seq<Candidate>) returns (r: Result<Outcome, Refused>)
    ensures r == Ok(Survivor(LongestOf(Claims(candidates), Bytes)))
  {
    hide Bytes, FirstMax;
    var claims := Claims(candidates);
    ghost var hs := Helds(claims);
    ghost var sizes := Sizes(hs, Bytes);
    var best: Option<Held> := None;
    for i := 0 to |claims|
      invariant i == 0 ==> best == None
      invariant i > 0 ==> best == Some(hs[FirstMax(sizes[..i])])
    {
      assert claims[i] in claims;
      var h := HeldOf(claims[i]);
      LongestOneMore(sizes, i);
      if best.None? || Measure(h, Bytes) > Measure(best.value, Bytes) {
        best := Some(h);
      }
    }
    assert sizes[..|claims|] == sizes;
    return Ok(Survivor(best));
  }

  lemma LongestOneMore(sizes: seq<nat>, i: nat)
    requires i < |sizes|
    ensures FirstMax(sizes[..i + 1]) ==
      if i == 0 || sizes[i] > sizes[FirstMax(sizes[..i])] then i else FirstMax(sizes[..i])
  {
    assert sizes[..i + 1][..i] == sizes[..i];
  }

  method MajorityWins(candidates: seq<Candidate>) returns (r: Result<Outcome, Refused>)
    ensures r == Ok(Survivor(PluralityOf(Claims(candidates))))
  {
    var claims := Claims(candidates);
    ghost var hs := Helds(claims);
    var keys: seq<Held>, counts: seq<nat> := [], [];
    for i := 0 to |claims|
      invariant keys == FirstSeen(hs[..i])
      invariant counts == Counts(keys, hs[..i])
    {
      assert claims[i] in claims;
      assert hs[..i + 1] == hs[..i] + [hs[i]];
      keys, counts := Tally(keys, counts, hs[..i], HeldOf(claims[i]));
    }
    assert hs[..|claims|] == hs;
    if claims == [] {
      return Ok(Survivor(None));
    }
    FirstSeenSingle(hs);
    var best := FirstOfMost(keys, counts);
    return Ok(Survivor(Some(best)));
  }

  method Tally(keys: seq<Held>, counts: seq<nat>, ghost hs: seq<Held>, h: Held)
    returns (keys': seq<Held>, counts': seq<nat>)
    requires keys == FirstSeen(hs) && counts == Counts(keys, hs)
    ensures keys' == FirstSeen(hs + [h]) && counts' == Counts(keys', hs + [h])
  {
    FirstSeenOneMore(hs, h);
    var k := Position(keys, h);
    if k < |keys| {
      CountRises(keys, hs, k);
      hide Counts, FirstSeen;
      keys', counts' := keys, counts[k := counts[k] + 1];
    } else {
      CountBegins(keys, hs, h);
      hide Counts, FirstSeen;
      keys', counts' := keys + [h], counts + [1];
    }
  }

  lemma FirstSeenOneMore(hs: seq<Held>, h: Held)
    ensures FirstSeen(hs + [h]) == if h in FirstSeen(hs) then FirstSeen(hs) else FirstSeen(hs) + [h]
  {
    assert (hs + [h])[..|hs|] == hs;
  }

  lemma OneMoreCount(x: Held, hs: seq<Held>, h: Held)
    ensures Count(x, hs + [h]) == Count(x, hs) + (if x == h then 1 else 0)
  {
    assert multiset(hs + [h]) == multiset(hs) + multiset{h};
  }

  lemma CountRises(keys: seq<Held>, hs: seq<Held>, k: nat)
    requires keys == FirstSeen(hs) && k < |keys|
    ensures Counts(keys, hs + [keys[k]]) == Counts(keys, hs)[k := Counts(keys, hs)[k] + 1]
  {
    hide Count;
    forall i | 0 <= i < |keys| { OneMoreCount(keys[i], hs, keys[k]); }
  }

  lemma CountBegins(keys: seq<Held>, hs: seq<Held>, h: Held)
    requires keys == FirstSeen(hs) && h !in keys
    ensures Counts(keys + [h], hs + [h]) == Counts(keys, hs) + [1]
  {
    assert h !in hs;
    assert Count(h, hs) == 0;
    hide Count;
    OneMoreCount(h, hs, h);
    forall i | 0 <= i <= |keys| ensures Counts(keys + [h], hs + [h])[i] == (Counts(keys, hs) + [1])[i] {
      if i < |keys| {
        assert keys[i] in keys;
        OneMoreCount(keys[i], hs, h);
      }
    }
  }

  method FirstOfMost(keys: seq<Held>, counts: seq<nat>) returns (best: Held)
    requires keys != [] && |counts| == |keys|
    ensures best == keys[FirstMax(counts)]
  {
    best := keys[0];
    var bestCount := counts[0];
    for i := 1 to |keys|
      invariant best == keys[FirstMax(counts[..i])] && bestCount == counts[FirstMax(counts[..i])]
    {
      assert counts[..i + 1][..i] == counts[..i];
      if counts[i] > bestCount {
        best, bestCount := keys[i], counts[i];
      }
    }
    assert counts[..|keys|] == counts;
  }

  method Position(keys: seq<Held>, h: Held) returns (k: nat)
    ensures k <= |keys| && h !in keys[..k]
    ensures k < |keys| ==> keys[k] == h
    ensures k == |keys| ==> h !in keys
  {
    k := 0;
    while k < |keys| && keys[k] != h
      invariant k <= |keys| && h !in keys[..k]
    {
      k := k + 1;
    }
  }

  method PriorityWins(candidates: seq<Candidate>, order: seq<Source>) returns (r: Result<Outcome, Refused>)
    ensures r == Resolved(Claims(candidates), SourcePriority(order), Bytes)
  {
    var claims := Claims(candidates);
    for i := 0 to |claims|
      invariant forall j :: 0 <= j < i ==> claims[j].provenance.source in order
    {
      if claims[i].provenance.source !in order {
        assert claims[i] in claims;
        return Err(UnlistedSource);
      }
    }
    assert AllListed(claims, order);
    for i := 0 to |order|
      invariant FirstTier(claims, order) == FirstTier(claims, order[i..])
    {
      assert order[i..][0] == order[i] && order[i..][1..] == order[i + 1..];
      var atSource := Filter(From(order[i]), claims);
      if atSource != [] {
        r := MostRecentWins(atSource);
        FilterAll(IsClaim, atSource);
        return r;
      }
    }
    return Ok(Survivor(None));
  }
}
