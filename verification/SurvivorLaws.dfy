/**
 What each strategy without a time axis promises, in terms of the claims alone, and that the engine
 and the oracle both keep it.
 */
module SurvivorLaws {
  import opened Core
  import opened Ordering
  import opened Survivorship
  import opened Differential

  /** Both implementations, whichever way the oracle measures, answer this. */
  ghost predicate BothAnswer(cs: seq<Candidate>, strategy: Strategy, r: Result<Outcome, Refused>)
    requires AllClaims(cs)
  {
    && SurvivorEngine.EngineResolved(cs, strategy) == r
    && Resolved(cs, strategy, Reference.Bytes) == r
  }

  // ----- the most frequent value

  /** Nothing is said more often than what the `i`th claim says, and nothing before it as often. */
  ghost predicate MostSaid(hs: seq<Held>, i: nat) {
    && i < |hs|
    && (forall h :: multiset(hs)[h] <= multiset(hs)[hs[i]])
    && (forall j :: 0 <= j < i ==> multiset(hs)[hs[j]] < multiset(hs)[hs[i]])
  }

  lemma OneIsMostSaid(hs: seq<Held>, i: nat, j: nat)
    requires MostSaid(hs, i) && MostSaid(hs, j)
    ensures i == j
  {
    var m := multiset(hs);
    assert m[hs[i]] <= m[hs[j]] && m[hs[j]] <= m[hs[i]];
  }

  /** Where a value first appears, everything first seen before it stands earlier in `FirstSeen`. */
  lemma {:induction false} FirstAppearance(hs: seq<Held>, k: nat) returns (i: nat)
    requires k < |FirstSeen(hs)|
    ensures i < |hs| && hs[i] == FirstSeen(hs)[k]
    ensures forall j :: 0 <= j < i ==> hs[j] in FirstSeen(hs)[..k]
  {
    var front, last := hs[..|hs| - 1], hs[|hs| - 1];
    assert hs == front + [last];
    if k < |FirstSeen(front)| {
      i := FirstAppearance(front, k);
      assert FirstSeen(hs)[..k] == FirstSeen(front)[..k];
    } else {
      i := |hs| - 1;
      assert FirstSeen(hs)[..k] == FirstSeen(front);
      forall j | 0 <= j < i ensures hs[j] in FirstSeen(front) {
        assert hs[j] == front[j] && front[j] in front;
      }
    }
  }

  lemma PluralityIsMostSaid(cs: seq<Candidate>) returns (i: nat)
    requires AllClaims(cs) && cs != []
    ensures MostSaid(Helds(cs), i) && PluralityOf(cs) == Some(Helds(cs)[i])
  {
    var hs := Helds(cs);
    var distinct := FirstSeen(hs);
    FirstSeenSingle(hs);
    var counts := Counts(distinct, hs);
    var k := FirstMax(counts);
    i := FirstAppearance(hs, k);
    forall h ensures multiset(hs)[h] <= multiset(hs)[hs[i]] {
      if h in hs {
        var m :| 0 <= m < |distinct| && distinct[m] == h;
        assert counts[m] <= counts[k];
      } else {
        assert h !in multiset(hs);
      }
    }
    forall j | 0 <= j < i ensures multiset(hs)[hs[j]] < multiset(hs)[hs[i]] {
      var m :| 0 <= m < k && distinct[m] == hs[j];
      assert counts[m] < counts[k];
    }
  }

  /** What both implementations do with claims that are not all alike, and with claims that are. */
  lemma BehindUnanimity(cs: seq<Candidate>, strategy: Strategy)
    requires AllClaims(cs) && cs != [] && !strategy.ValidInterval? && strategy != SourcePriority([])
    ensures SurvivorEngine.EngineResolved(cs, strategy) ==
      if Unanimous(cs) then Ok(Survivor(Some(Helds(cs)[0]))) else Resolved(cs, strategy, SurvivorEngine.Characters)
  {
    hide MostRecentOf, TimelineOf, LongestOf, PluralityOf, FirstTier, AllListed, Unanimous;
  }

  lemma MajorityIsPlurality(cs: seq<Candidate>, strategy: Strategy, size: string -> nat)
    requires AllClaims(cs) && (strategy.MajorityVote? || strategy.ConfidenceMajority?)
    ensures Resolved(cs, strategy, size) == Ok(Survivor(PluralityOf(cs)))
  {
  }

  /** Under either majority strategy the first of the values said most often survives, and only it. */
  lemma MajorityIsMostSaid(cs: seq<Candidate>, strategy: Strategy, i: nat)
    requires AllClaims(cs) && cs != [] && (strategy.MajorityVote? || strategy.ConfidenceMajority?)
    requires MostSaid(Helds(cs), i)
    ensures BothAnswer(cs, strategy, Ok(Survivor(Some(Helds(cs)[i]))))
  {
    hide PluralityOf, MostSaid, Resolved, SurvivorEngine.EngineResolved;
    var j := PluralityIsMostSaid(cs);
    OneIsMostSaid(Helds(cs), i, j);
    BehindUnanimity(cs, strategy);
    MajorityIsPlurality(cs, strategy, Reference.Bytes);
    MajorityIsPlurality(cs, strategy, SurvivorEngine.Characters);
    if Unanimous(cs) {
      UnanimousValues(cs);
      assert Helds(cs)[i] in Helds(cs);
    }
  }

  /** And there always is one such place. */
  lemma SomeIsMostSaid(cs: seq<Candidate>)
    requires AllClaims(cs) && cs != []
    ensures exists i: nat :: i < |cs| && MostSaid(Helds(cs), i)
  {
    hide MostSaid;
    var i := PluralityIsMostSaid(cs);
    MostSaidIsSaid(Helds(cs), i);
  }

  lemma MostSaidIsSaid(hs: seq<Held>, i: nat)
    requires MostSaid(hs, i)
    ensures i < |hs|
  {
  }

  // ----- the value heard last

  /** Somebody asked says it, and everybody asked who was heard as late says it and was not heard later. */
  ghost predicate LastSaid(cs: seq<Candidate>, asked: Candidate -> bool, h: Held) {
    exists c :: c in cs && asked(c) && c.value == Asserts(h) && NoneLaterDiffers(cs, asked, c)
  }

  ghost predicate NoneLaterDiffers(cs: seq<Candidate>, asked: Candidate -> bool, c: Candidate) {
    forall d :: d in cs && asked(d) ==>
      d.provenance.observedAt < c.provenance.observedAt
      || (d.provenance.observedAt == c.provenance.observedAt && d.value == c.value)
  }

  function Anyone(): Candidate -> bool {
    (c: Candidate) => true
  }

  function Saying(source: Source): Candidate -> bool {
    (c: Candidate) => c.provenance.source == source
  }

  /** Whoever was heard last speaks for all heard as late, or nobody does. */
  lemma MostRecentIsLatest(cs: seq<Candidate>) returns (last: Candidate)
    requires AllClaims(cs) && cs != []
    ensures last in cs && forall c :: c in cs ==> c.Heard() <= last.Heard()
    ensures MostRecentOf(cs) ==
      if forall c :: c in cs && c.Heard() == last.Heard() ==> c.value == last.value
      then Ok(Survivor(Some(HeldOf(last)))) else Err(NoMostRecent)
  {
    var at := LatestHeard(cs);
    last :| last in cs && last.Heard() == at;
    var group := Filter(HeardOn(at), cs);
    assert last in group;
    var hs := Helds(group);
    FirstSeenSingle(hs);
    hide FirstSeen, Filter, LatestHeard;
    GroupSays(group, hs, last);
    if forall h :: h in hs ==> h == hs[0] {
      forall c | c in cs && c.Heard() == last.Heard() ensures c.value == last.value {
        assert c in group;
      }
    }
  }

  lemma GroupSays(group: seq<Candidate>, hs: seq<Held>, last: Candidate)
    requires AllClaims(group) && hs == Helds(group) && last in group
    ensures hs != []
    ensures (forall h :: h in hs ==> h == hs[0]) <==> forall c :: c in group ==> c.value == last.value
    ensures (forall c :: c in group ==> c.value == last.value) ==> hs[0] == HeldOf(last)
  {
    var k :| 0 <= k < |group| && group[k] == last;
    assert hs[k] in hs && group[0] in group;
    if forall h :: h in hs ==> h == hs[0] {
      forall c | c in group ensures c.value == last.value {
        var i :| 0 <= i < |group| && group[i] == c;
        assert hs[i] in hs;
      }
    }
    if forall c :: c in group ==> c.value == last.value {
      forall h | h in hs ensures h == hs[0] {
        var i :| 0 <= i < |hs| && hs[i] == h;
        assert group[i] in group;
      }
    }
  }

  lemma MostRecentIsLastSaid(cs: seq<Candidate>, h: Held)
    requires AllClaims(cs) && cs != []
    ensures MostRecentOf(cs) == Ok(Survivor(Some(h))) <==> LastSaid(cs, Anyone(), h)
    ensures MostRecentOf(cs) != Ok(Survivor(None))
    ensures MostRecentOf(cs).Ok? ==> MostRecentOf(cs).value.Survivor?
    ensures MostRecentOf(cs).Err? ==> MostRecentOf(cs) == Err(NoMostRecent)
  {
    var last := MostRecentIsLatest(cs);
    hide MostRecentOf;
    if forall c :: c in cs && c.Heard() == last.Heard() ==> c.value == last.value {
      assert NoneLaterDiffers(cs, Anyone(), last);
    }
    if LastSaid(cs, Anyone(), h) {
      var c :| c in cs && Anyone()(c) && c.value == Asserts(h) && NoneLaterDiffers(cs, Anyone(), c);
      assert c.Heard() == last.Heard() && last.value == c.value;
    }
  }

  /** The value heard last survives, and where two were heard last and differ, both refuse. */
  lemma LatestIsLastSaid(cs: seq<Candidate>, h: Held)
    requires AllClaims(cs) && cs != []
    ensures BothAnswer(cs, MostRecent, Ok(Survivor(Some(h)))) <==> LastSaid(cs, Anyone(), h)
    ensures (forall x :: !LastSaid(cs, Anyone(), x)) ==> BothAnswer(cs, MostRecent, Err(NoMostRecent))
  {
    MostRecentIsLastSaid(cs, h);
    assert cs[0] in cs;
    if Unanimous(cs) {
      UnanimousMostRecent(cs, HeldOf(cs[0]));
      MostRecentIsLastSaid(cs, HeldOf(cs[0]));
    }
    RefusedOrHeld(cs);
    hide MostRecentOf, LastSaid;
  }

  lemma RefusedOrHeld(cs: seq<Candidate>)
    requires AllClaims(cs) && cs != []
    ensures MostRecentOf(cs) == Err(NoMostRecent) || exists x :: LastSaid(cs, Anyone(), x)
  {
    if MostRecentOf(cs).Ok? {
      MostRecentIsLastSaid(cs, MostRecentOf(cs).value.held.value);
    }
  }

  // ----- the first source that said anything

  /** The first source of the list that claims anything. */
  ghost predicate SpeaksFirst(cs: seq<Candidate>, order: seq<Source>, k: nat) {
    && k < |order|
    && (exists c :: c in cs && c.provenance.source == order[k])
    && (forall c, j :: c in cs && 0 <= j < k ==> c.provenance.source != order[j])
  }

  lemma {:induction false} TierSpeaksFirst(cs: seq<Candidate>, order: seq<Source>) returns (k: nat)
    requires AllClaims(cs) && exists c :: c in cs && c.provenance.source in order
    ensures SpeaksFirst(cs, order, k)
    ensures var tier := Filter(From(order[k]), cs); tier != [] && FirstTier(cs, order) == MostRecentOf(tier)
  {
    hide MostRecentOf, Filter, SpeaksFirst, AllClaims;
    var tier := Filter(From(order[0]), cs);
    assert order == [order[0]] + order[1..];
    if tier != [] {
      k := 0;
      assert tier[0] in tier;
      FirstSpeaks(cs, order, tier[0]);
    } else {
      var c :| c in cs && c.provenance.source in order;
      assert c !in tier;
      var rest := TierSpeaksFirst(cs, order[1..]);
      k := rest + 1;
      assert forall d :: d in cs ==> d !in tier;
      SpeaksAfter(cs, order, rest);
    }
  }

  lemma FirstSpeaks(cs: seq<Candidate>, order: seq<Source>, c: Candidate)
    requires order != [] && c in cs && c.provenance.source == order[0]
    ensures SpeaksFirst(cs, order, 0)
  {
  }

  lemma SpeaksAfter(cs: seq<Candidate>, order: seq<Source>, rest: nat)
    requires order != [] && SpeaksFirst(cs, order[1..], rest)
    requires forall d :: d in cs ==> d.provenance.source != order[0]
    ensures SpeaksFirst(cs, order, rest + 1) && order[rest + 1] == order[1..][rest]
  {
    forall d, j | d in cs && 0 <= j < rest + 1 ensures d.provenance.source != order[j] {
      if j > 0 { assert order[j] == order[1..][j - 1]; }
    }
  }

  lemma OneSpeaksFirst(cs: seq<Candidate>, order: seq<Source>, j: nat, k: nat)
    requires SpeaksFirst(cs, order, j) && SpeaksFirst(cs, order, k)
    ensures j == k
  {
  }

  /**
   Every claim listed, the first source of the list that claims anything decides alone: the value it
   was heard to say last, and a refusal where that is two.
   */
  lemma PriorityIsFirstToSpeak(cs: seq<Candidate>, order: seq<Source>, k: nat, h: Held)
    requires AllClaims(cs) && AllListed(cs, order) && SpeaksFirst(cs, order, k)
    ensures Resolved(cs, SourcePriority(order), Reference.Bytes) == Ok(Survivor(Some(h))) <==>
      LastSaid(cs, Saying(order[k]), h)
    ensures (forall x :: !LastSaid(cs, Saying(order[k]), x)) ==>
      Resolved(cs, SourcePriority(order), Reference.Bytes) == Err(NoMostRecent)
    ensures SurvivorEngine.EngineResolved(cs, SourcePriority(order)) ==
      Resolved(cs, SourcePriority(order), Reference.Bytes)
  {
    hide MostRecentOf, LastSaid, FirstTier, Resolved, SurvivorEngine.EngineResolved;
    var c :| c in cs && c.provenance.source == order[k];
    assert c.provenance.source in order;
    var first := TierSpeaksFirst(cs, order);
    OneSpeaksFirst(cs, order, first, k);
    var tier := Filter(From(order[k]), cs);
    MostRecentIsLastSaid(tier, h);
    RefusedOrHeld(tier);
    forall x ensures LastSaid(tier, Anyone(), x) <==> LastSaid(cs, Saying(order[k]), x) {
      SaidInTier(cs, tier, order[k], x);
    }
    UnanimousStillAgrees(cs, order);
  }

  lemma SaidInTier(cs: seq<Candidate>, tier: seq<Candidate>, source: Source, h: Held)
    requires forall c :: c in tier <==> c in cs && c.provenance.source == source
    ensures LastSaid(tier, Anyone(), h) <==> LastSaid(cs, Saying(source), h)
  {
    forall c | c in tier
      ensures NoneLaterDiffers(tier, Anyone(), c) <==> NoneLaterDiffers(cs, Saying(source), c) {}
  }

  lemma UnanimousStillAgrees(cs: seq<Candidate>, order: seq<Source>)
    requires AllClaims(cs) && AllListed(cs, order) && cs != []
    ensures SurvivorEngine.EngineResolved(cs, SourcePriority(order)) ==
      Resolved(cs, SourcePriority(order), Reference.Bytes)
    ensures Resolved(cs, SourcePriority(order), Reference.Bytes) == FirstTier(cs, order)
  {
    hide FirstTier, MostRecentOf, TimelineOf, LongestOf, PluralityOf, Unanimous;
    assert cs[0] in cs;
    BehindUnanimity(cs, SourcePriority(order));
    if Unanimous(cs) {
      UnanimousValues(cs);
      forall c | c in cs ensures HeldOf(c) == Helds(cs)[0] {
        var i :| 0 <= i < |cs| && cs[i] == c;
        assert Helds(cs)[i] in Helds(cs);
      }
      UnanimousFirstTier(cs, order, Helds(cs)[0]);
    }
  }

  // ----- the rest

  /** The first value claimed; and what everyone claims, or nothing. */
  lemma FirstAndUnanimous(cs: seq<Candidate>, h: Held)
    requires AllClaims(cs) && cs != []
    ensures BothAnswer(cs, FirstNonNull, Ok(Survivor(Some(h)))) <==> cs[0].value == Asserts(h)
    ensures BothAnswer(cs, UnanimousOrNull, Ok(Survivor(Some(h)))) <==> forall c :: c in cs ==> c.value == Asserts(h)
    ensures BothAnswer(cs, UnanimousOrNull, Ok(Survivor(None))) <==>
      exists c, d :: c in cs && d in cs && c.value != d.value
  {
    assert cs[0] in cs && Helds(cs)[0] == HeldOf(cs[0]);
  }

  /** Measuring, each answers the first of the longest by its own measure. */
  lemma LongestSurvives(cs: seq<Candidate>, strategy: Strategy, i: nat)
    requires AllClaims(cs) && cs != [] && CountsLength(strategy) && i < |cs|
    ensures FirstLongest(Helds(cs), i, Reference.Bytes) ==>
      Resolved(cs, strategy, Reference.Bytes) == Ok(Survivor(Some(Helds(cs)[i])))
    ensures FirstLongest(Helds(cs), i, SurvivorEngine.Characters) ==>
      SurvivorEngine.EngineResolved(cs, strategy) == Ok(Survivor(Some(Helds(cs)[i])))
  {
    var b := LongestIsFirst(cs, Reference.Bytes);
    var c := LongestIsFirst(cs, SurvivorEngine.Characters);
    hide FirstLongest, LongestOf;
    if Unanimous(cs) {
      UnanimousValues(cs);
      assert Helds(cs)[c] in Helds(cs);
    }
  }

  /** Only the interval strategy answers with a timeline. */
  lemma {:induction false} SurvivorsOnly(cs: seq<Candidate>, strategy: Strategy)
    requires AllClaims(cs) && !strategy.ValidInterval?
    ensures var r := SurvivorEngine.EngineResolved(cs, strategy);
      r.Ok? ==> r.value.Survivor?
  {
    hide MostRecentOf, TimelineOf, LongestOf, PluralityOf, FirstTier, AllListed, Unanimous;
    if cs != [] { MostRecentIsLastSaid(cs, Absent); }
    if strategy.SourcePriority? { TierSurvivors(cs, strategy.order); }
  }

  lemma {:induction false} TierSurvivors(cs: seq<Candidate>, order: seq<Source>)
    requires AllClaims(cs)
    ensures FirstTier(cs, order).Ok? ==> FirstTier(cs, order).value.Survivor?
  {
    hide MostRecentOf, Filter;
    if order != [] {
      var tier := Filter(From(order[0]), cs);
      if tier != [] { MostRecentIsLastSaid(tier, Absent); } else { TierSurvivors(cs, order[1..]); }
    }
  }

  /** Nothing claimed, nothing survives, whatever the strategy. */
  lemma NothingSurvives(strategy: Strategy)
    requires !strategy.ValidInterval?
    ensures BothAnswer([], strategy, Ok(Survivor(None)))
  {
    if strategy.SourcePriority? { NoClaimsNoTier(strategy.order); }
  }
}
