/**
 Engine against oracle: exactly where the two survivorship implementations agree, and the
 shrinker that reduces a disagreement to one nothing more can be deleted from.
 */
module Differential {
  import opened Core
  import opened Ordering
  import opened Survivorship
  import Reference
  import SurvivorEngine

  /** A generated assertion; `None` is a tombstone, and silence is not representable. */
  datatype Assertion = Assertion(
    value: Option<string>, valid: Interval, provenance: Provenance, supersession: Supersession)

  function CandidateOf(a: Assertion): Candidate {
    Candidate(Asserts(if a.value.Some? then Value(a.value.value) else Absent), a.provenance, a.valid)
  }

  function CandidatesOf(history: seq<Assertion>): (cs: seq<Candidate>)
    ensures |cs| == |history|
  {
    seq(|history|, i requires 0 <= i < |history| => CandidateOf(history[i]))
  }

  // ----- agreement

  /** Two refusals agree whatever their reasons. */
  predicate SameAnswer(a: Result<Outcome, Refused>, b: Result<Outcome, Refused>) {
    (a.Err? && b.Err?) || a == b
  }

  predicate Agree(candidates: seq<Candidate>, strategy: Strategy) {
    SameAnswer(SurvivorEngine.EngineResolved(Claims(candidates), strategy),
               Resolved(Claims(candidates), strategy, Reference.Bytes))
  }

  method Agrees(history: seq<Assertion>, strategy: Strategy) returns (same: bool)
    ensures same == Agree(CandidatesOf(history), strategy)
  {
    var engine := SurvivorEngine.Merge(CandidatesOf(history), strategy);
    var reference := Reference.Merge(CandidatesOf(history), strategy);
    same := (engine.Err? && reference.Err?) || engine == reference;
  }

  predicate CountsLength(strategy: Strategy) {
    strategy.MostComplete? || strategy.LongestValue?
  }

  lemma UnanimousValues(cs: seq<Candidate>)
    requires AllClaims(cs) && cs != [] && Unanimous(cs)
    ensures forall h :: h in Helds(cs) ==> h == Helds(cs)[0]
  {
    forall h | h in Helds(cs) ensures h == Helds(cs)[0] {
      var i :| 0 <= i < |cs| && Helds(cs)[i] == h;
      assert cs[i] in cs && cs[0] in cs;
    }
  }

  lemma UnanimousMostRecent(cs: seq<Candidate>, h: Held)
    requires AllClaims(cs) && cs != []
    requires forall c :: c in cs ==> HeldOf(c) == h
    ensures MostRecentOf(cs) == Ok(Survivor(Some(h)))
  {
    var group := Filter(HeardOn(LatestHeard(cs)), cs);
    var c :| c in cs && c.Heard() == LatestHeard(cs);
    assert c in group;
    var hs := Helds(group);
    FirstSeenSingle(hs);
    forall x | x in hs ensures x == h {
      var i :| 0 <= i < |hs| && hs[i] == x;
      assert group[i] in group;
    }
    assert hs[0] in hs;
  }

  lemma {:induction false} UnanimousFirstTier(cs: seq<Candidate>, order: seq<Source>, h: Held)
    requires AllClaims(cs) && exists c :: c in cs && c.provenance.source in order
    requires forall c :: c in cs ==> HeldOf(c) == h
    ensures FirstTier(cs, order) == Ok(Survivor(Some(h)))
  {
    var tier := Filter(From(order[0]), cs);
    if tier != [] {
      UnanimousMostRecent(tier, h);
    } else {
      var c :| c in cs && c.provenance.source in order;
      assert c !in tier;
      assert order == [order[0]] + order[1..];
      UnanimousFirstTier(cs, order[1..], h);
    }
  }

  lemma NoClaimsNoLatest()
    ensures MostRecentOf([]) == Ok(Survivor(None))
  {
  }

  lemma {:induction false} NoClaimsNoTier(order: seq<Source>)
    ensures FirstTier([], order) == Ok(Survivor(None))
  {
    if order != [] {
      assert Filter(From(order[0]), []) == [];
      NoClaimsNoTier(order[1..]);
    }
  }

  /**
   The two agree on every history under every strategy that neither measures length nor ranks
   sources, refusals included.
   */
  lemma EngineMatchesOracle(candidates: seq<Candidate>, strategy: Strategy)
    requires !CountsLength(strategy) && !strategy.SourcePriority?
    ensures Agree(candidates, strategy)
  {
    hide TimelineOf, LongestOf, FirstTier, AllListed, Claims, MostRecentOf, FirstSeen;
    var cs := Claims(candidates);
    if cs != [] && Unanimous(cs) && !strategy.ValidInterval? {
      UnanimousValues(cs);
      var hs := Helds(cs);
      FirstSeenSingle(hs);
      assert cs[0] in cs;
      if strategy.MostRecent? {
        UnanimousMostRecent(cs, hs[0]);
      }
    } else if cs == [] {
      assert MostRecentOf(cs) == Ok(Survivor(None)) by { NoClaimsNoLatest(); }
    }
  }

  /**
   Ranking sources, they part exactly where everyone says the same thing and somebody saying
   it is unlisted: the engine answers before it looks at the list, the oracle refuses.
   */
  lemma PriorityAgreesExactly(candidates: seq<Candidate>, order: seq<Source>)
    ensures var cs := Claims(candidates);
      Agree(candidates, SourcePriority(order)) <==>
      !(cs != [] && Unanimous(cs) && !AllListed(cs, order))
  {
    var cs := Claims(candidates);
    if cs == [] {
      NoClaimsNoTier(order);
    } else {
      assert cs[0] in cs;
      if Unanimous(cs) && AllListed(cs, order) {
        UnanimousValues(cs);
        forall c | c in cs ensures HeldOf(c) == Helds(cs)[0] {}
        UnanimousFirstTier(cs, order, Helds(cs)[0]);
      }
    }
  }

  /** One claim from a source the list leaves out: the engine answers it, the oracle refuses. */
  lemma PriorityDisagreement(held: Held, valid: Interval, at: Timestamp)
    ensures var c := Candidate(Asserts(held), Provenance(AgentInference, at, ""), valid);
      && SurvivorEngine.EngineResolved(Claims([c]), SourcePriority([UserAssertion])) == Ok(Survivor(Some(held)))
      && Resolved(Claims([c]), SourcePriority([UserAssertion]), Reference.Bytes) == Err(UnlistedSource)
      && !Agree([c], SourcePriority([UserAssertion]))
  {
    var c := Candidate(Asserts(held), Provenance(AgentInference, at, ""), valid);
    var order := [UserAssertion];
    FilterAll(IsClaim, [c]);
    assert c in [c] && c.provenance.source !in order;
    assert !AllListed([c], order);
    assert Helds([c])[0] == held;
  }

  // ----- length

  predicate Ascii(s: string) {
    forall c :: c in s ==> c as int < 0x80
  }

  predicate AsciiValues(cs: seq<Candidate>) {
    forall c :: c in cs && IsClaim(c) && HeldOf(c).Value? ==> Ascii(HeldOf(c).text)
  }

  lemma {:induction false} AsciiBytes(s: string)
    requires Ascii(s)
    ensures Reference.Bytes(s) == |s|
  {
    if s != "" {
      assert s[0] in s;
      assert forall c :: c in s[1..] ==> c in s;
      AsciiBytes(s[1..]);
    }
  }

  /** How long a value is by some count; an absence has no length. */
  function Length(h: Held, size: string -> nat): nat {
    if h.Value? then size(h.text) else 0
  }

  /** Nothing measures more than the value at `i`, and everything before it measures less. */
  predicate FirstLongest(hs: seq<Held>, i: nat, size: string -> nat)
    requires i < |hs|
  {
    && (forall j :: 0 <= j < |hs| ==> Length(hs[j], size) <= Length(hs[i], size))
    && (forall j :: 0 <= j < i ==> Length(hs[j], size) < Length(hs[i], size))
  }

  lemma LongestIsFirst(cs: seq<Candidate>, size: string -> nat) returns (i: nat)
    requires AllClaims(cs) && cs != []
    ensures i < |cs| && FirstLongest(Helds(cs), i, size)
    ensures LongestOf(cs, size) == Some(Helds(cs)[i])
    ensures forall j: nat :: j < |cs| && FirstLongest(Helds(cs), j, size) ==> j == i
  {
    var hs := Helds(cs);
    i := FirstMax(Sizes(hs, size));
    assert forall j :: 0 <= j < |hs| ==> Sizes(hs, size)[j] == Measure(hs[j], size);
    forall j: nat | j < |cs| && FirstLongest(hs, j, size) ensures j == i {
      assert Measure(hs[j], size) == Measure(hs[i], size);
    }
  }

  /** One place holds the first longest value both ways. */
  predicate LongestBothWays(hs: seq<Held>) {
    exists i: nat :: i < |hs| && FirstLongest(hs, i, Reference.Bytes) && FirstLongest(hs, i, SurvivorEngine.Characters)
  }

  lemma AgreeWhereLongestDo(candidates: seq<Candidate>, strategy: Strategy)
    requires CountsLength(strategy) && Claims(candidates) != []
    ensures var cs := Claims(candidates);
      Agree(candidates, strategy) <==>
      LongestOf(cs, Reference.Bytes) == LongestOf(cs, SurvivorEngine.Characters)
  {
    var cs := Claims(candidates);
    var b := LongestIsFirst(cs, Reference.Bytes);
    var c := LongestIsFirst(cs, SurvivorEngine.Characters);
    hide FirstLongest, LongestOf, Claims;
    if Unanimous(cs) {
      UnanimousValues(cs);
      assert Helds(cs)[b] in Helds(cs) && Helds(cs)[c] in Helds(cs);
    }
  }

  /**
   Measuring length, the two agree exactly where nothing is claimed or one claim is the first
   longest both ways: nothing exceeds it in bytes or in characters, and all before it fall short.
   */
  lemma LengthAgreesExactly(candidates: seq<Candidate>, strategy: Strategy)
    requires CountsLength(strategy)
    ensures var hs := Helds(Claims(candidates));
      Agree(candidates, strategy) <==> hs == [] || LongestBothWays(hs)
  {
    var cs := Claims(candidates);
    if cs != [] {
      AgreeWhereLongestDo(candidates, strategy);
      var hs := Helds(cs);
      var b := LongestIsFirst(cs, Reference.Bytes);
      var c := LongestIsFirst(cs, SurvivorEngine.Characters);
      hide FirstLongest, LongestOf, Claims, Agree;
      if hs[b] == hs[c] {
        SameValueSamePlace(hs, b, c);
      }
    }
  }

  lemma SameValueSamePlace(hs: seq<Held>, b: nat, c: nat)
    requires b < |hs| && c < |hs| && hs[b] == hs[c]
    requires FirstLongest(hs, b, Reference.Bytes) && FirstLongest(hs, c, SurvivorEngine.Characters)
    ensures b == c
  {
  }

  /** Where every value is ASCII the two notions of length coincide, and so do the two answers. */
  lemma LengthAgreesOnAscii(candidates: seq<Candidate>, strategy: Strategy)
    requires CountsLength(strategy) && AsciiValues(candidates)
    ensures Agree(candidates, strategy)
  {
    LengthAgreesExactly(candidates, strategy);
    var cs := Claims(candidates);
    if cs != [] {
      var hs := Helds(cs);
      var i := LongestIsFirst(cs, Reference.Bytes);
      forall j | 0 <= j < |hs|
        ensures Measure(hs[j], Reference.Bytes) == Measure(hs[j], SurvivorEngine.Characters)
      {
        assert cs[j] in candidates;
        if hs[j].Value? { AsciiBytes(hs[j].text); }
      }
      assert FirstLongest(hs, i, SurvivorEngine.Characters);
    }
  }

  const PLAIN := "abcd"
  const ACCENTED := "caf\U{E9}"

  lemma AccentedLengths()
    ensures Reference.Bytes(PLAIN) == 4 && |PLAIN| == 4
    ensures Reference.Bytes(ACCENTED) == 5 && |ACCENTED| == 4
  {
    AsciiBytes(PLAIN);
    AsciiBytes("caf");
    var e: string := ACCENTED[3..];
    assert e == ['\U{E9}'];
    assert e[1..] == "";
    assert Reference.Bytes(e) == 2;
    BytesAppend("caf", e);
    assert ACCENTED == "caf" + e;
  }

  lemma {:induction false} BytesAppend(a: string, b: string)
    ensures Reference.Bytes(a + b) == Reference.Bytes(a) + Reference.Bytes(b)
  {
    if a == "" {
      assert a + b == b;
    } else {
      assert (a + b)[1..] == a[1..] + b;
      BytesAppend(a[1..], b);
    }
  }

  /** Outside ASCII they part: four characters in five bytes against four in four. */
  lemma LengthDisagreement(p: Provenance)
    ensures !Agree([Candidate(Asserts(Value(PLAIN)), p, Since(0)),
                    Candidate(Asserts(Value(ACCENTED)), p, Since(0))], MostComplete)
  {
    hide Reference.Bytes;
    var plain, accented := Value(PLAIN), Value(ACCENTED);
    var a := Candidate(Asserts(plain), p, Since(0));
    var b := Candidate(Asserts(accented), p, Since(0));
    var cs := [a, b];
    FilterAll(IsClaim, cs);
    var hs := Helds(Claims(cs));
    assert hs == [plain, accented];
    AccentedLengths();
    assert PLAIN[0] != ACCENTED[0];
    assert cs[0] in cs && cs[1] in cs;
    assert Sizes(hs, Reference.Bytes) == [4, 5];
    assert Sizes(hs, SurvivorEngine.Characters) == [4, 4];
  }

  // ----- shrinking

  function Without<T>(s: seq<T>, i: nat): seq<T>
    requires i < |s|
  {
    s[..i] + s[i + 1..]
  }

  /** `picked` is `from` at the ascending positions `at`. */
  ghost predicate Picks<T>(picked: seq<T>, from: seq<T>, at: seq<nat>) {
    && |at| == |picked|
    && (forall i, j :: 0 <= i < j < |at| ==> at[i] < at[j])
    && (forall i :: 0 <= i < |at| ==> at[i] < |from| && picked[i] == from[at[i]])
  }

  predicate Disagrees(history: seq<Assertion>, strategy: Strategy) {
    !Agree(CandidatesOf(history), strategy)
  }

  /** Deleting the assertion at `i` leaves nothing, or a history the two agree on. */
  ghost predicate Needed(history: seq<Assertion>, strategy: Strategy, i: nat)
    requires i < |history|
  {
    Without(history, i) == [] || !Disagrees(Without(history, i), strategy)
  }

  lemma PicksWithout<T>(picked: seq<T>, from: seq<T>, at: seq<nat>, i: nat)
    requires Picks(picked, from, at) && i < |picked|
    ensures Picks(Without(picked, i), from, Without(at, i))
  {
  }

  /**
   A locally smallest counterexample:
   a subsequence of the input, disagreeing if the input did, from which no further single
   deletion leaves a non-empty disagreement.
   */
  method Shrink(history: seq<Assertion>, strategy: Strategy) returns (best: seq<Assertion>)
    ensures exists at :: Picks(best, history, at)
    ensures best == history || Disagrees(best, strategy)
    ensures history != [] ==> best != []
    ensures forall i :: 0 <= i < |best| ==> Needed(best, strategy, i)
  {
    hide Agree, Picks;
    best := history;
    ghost var at: seq<nat> := AllOf(history);
    var improved := true;
    while improved
      invariant Picks(best, history, at) && |at| == |best|
      invariant best == history || Disagrees(best, strategy)
      invariant history != [] ==> best != []
      invariant !improved ==> forall i :: 0 <= i < |best| ==> Needed(best, strategy, i)
      decreases |best|, improved
    {
      improved := false;
      for i := 0 to |best|
        invariant forall j :: 0 <= j < i ==> Needed(best, strategy, j)
      {
        var candidate := Without(best, i);
        if candidate != [] {
          var same := Agrees(candidate, strategy);
          if !same {
            PicksWithout(best, history, at, i);
            best, at := candidate, Without(at, i);
            improved := true;
            break;
          }
        }
      }
    }
  }

  ghost function AllOf<T>(s: seq<T>): (at: seq<nat>)
    ensures Picks(s, s, at) && |at| == |s|
  {
    seq(|s|, i => i)
  }
}
