/**
 Reading: what is believed about an attribute at two instants, where an assertion stands, which
 assertions a query admits, and the order recalled hits are shown in.
 */
module Read {
  import opened Core
  import opened Ordering
  import opened Survivorship
  import opened TimelineLaws
  import opened Store
  import opened EngineState
  import opened SurvivorLaws
  import SurvivorEngine
  import Scope

  // ----- about

  /** The three answers of a read that is not refused. */
  datatype Believed = Believes(text: string) | BelievesAbsent | Unknown

  datatype Policy = Policy(otherwise: Strategy, byAttribute: map<string, Strategy>) {
    function ForAttribute(attribute: string): Strategy {
      if attribute in byAttribute then byAttribute[attribute] else otherwise
    }
  }

  /** Heard by `txT`, and this holder's own: `None` matches only `None`. */
  function VisibleTo(txT: Timestamp, holder: Option<StableId>): Version -> bool {
    (v: Version) => v.IngestedAt() <= txT && v.accordingTo == holder
  }

  function CandidateOf(v: Version): Candidate {
    Candidate(Asserts(if v.value.Some? then Value(v.value.value) else Held.Absent), v.provenance, v.valid)
  }

  function CandidatesOf(versions: seq<Version>): (cs: seq<Candidate>)
    ensures |cs| == |versions|
    ensures AllClaims(cs)
    ensures forall i :: 0 <= i < |cs| ==> cs[i] == CandidateOf(versions[i])
  {
    seq(|versions|, i requires 0 <= i < |versions| => CandidateOf(versions[i]))
  }

  function BelievedOf(held: Option<Held>): Believed {
    match held
    case None => Unknown
    case Some(Value(text)) => Believes(text)
    case Some(Absent) => BelievesAbsent
  }

  /** The declarative read of one log: filter, survivorship, then the instant. */
  function AboutLog(strategy: Strategy, log: seq<Version>, validT: Timestamp, txT: Timestamp, holder: Option<StableId>)
    : Result<Believed, Refused>
  {
    var visible := Filter(VisibleTo(txT, holder), log);
    if visible == [] then Ok(Unknown)
    else
      match SurvivorEngine.EngineResolved(CandidatesOf(visible), strategy)
      case Err(e) => Err(e)
      case Ok(outcome) =>
        match HeldAt(outcome, validT)
        case Err(e) => Err(e)
        case Ok(held) => Ok(BelievedOf(held))
  }

  method AboutUnder(store: MemoryStore, policy: Policy, entity: StableId, attribute: string,
                    validT: Timestamp, txT: Timestamp, holder: Option<StableId>)
    returns (r: Result<Believed, Refused>)
    ensures attribute in policy.byAttribute ==>
      r == AboutLog(policy.byAttribute[attribute], store.History(entity, attribute), validT, txT, holder)
    ensures attribute !in policy.byAttribute ==>
      r == AboutLog(policy.otherwise, store.History(entity, attribute), validT, txT, holder)
  {
    hide Filter, HeldAt, SurvivorEngine.EngineResolved;
    var versions := Filter(VisibleTo(txT, holder), store.History(entity, attribute));
    if versions == [] {
      return Ok(Unknown);
    }
    var candidates := CandidatesOf(versions);
    var outcome := SurvivorEngine.Merge(candidates, policy.ForAttribute(attribute));
    FilterAll(IsClaim, candidates);
    if outcome.Err? {
      return Err(outcome.error);
    }
    match HeldAt(outcome.value, validT) {
      case Err(e) => return Err(e);
      case Ok(None) => return Ok(Unknown);
      case Ok(Some(Value(text))) => return Ok(Believes(text));
      case Ok(Some(Absent)) => return Ok(BelievesAbsent);
    }
  }

  /** Versions outside the view, by hearing or by holder, have no bearing on its answer. */
  lemma AboutIgnoresInvisible(strategy: Strategy, log: seq<Version>, more: seq<Version>,
                              validT: Timestamp, txT: Timestamp, holder: Option<StableId>)
    requires forall v :: v in more ==> v.IngestedAt() > txT || v.accordingTo != holder
    ensures AboutLog(strategy, log + more, validT, txT, holder) == AboutLog(strategy, log, validT, txT, holder)
  {
    var visible := VisibleTo(txT, holder);
    FilterAppend(visible, log, more);
    FilterNone(visible, more);
    assert Filter(visible, log) + [] == Filter(visible, log);
  }

  function AnswerOfBelief(r: Result<Believed, Refused>): Answer {
    match r
    case Err(_) => Refuses
    case Ok(Unknown) => NoCoverage
    case Ok(Believes(text)) => Holding(Value(text))
    case Ok(BelievesAbsent) => Holding(Held.Absent)
  }

  /** The claims a read competes, in one holder's view as of `txT`. */
  function Heard(log: seq<Version>, txT: Timestamp, holder: Option<StableId>): (cs: seq<Candidate>)
    ensures AllClaims(cs)
  {
    CandidatesOf(Filter(VisibleTo(txT, holder), log))
  }

  /** Over intervals, a read answers what the claims mean. */
  lemma AboutMeans(log: seq<Version>, validT: Timestamp, txT: Timestamp, holder: Option<StableId>)
    ensures AnswerOfBelief(AboutLog(ValidInterval, log, validT, txT, holder)) ==
      Meaning(Heard(log, txT, holder), validT)
  {
    hide TimelineOf, Meaning, Filter, HeldAt;
    var cs := Heard(log, txT, holder);
    TimelineAnswers(cs, validT);
    if cs == [] {
      NothingMeans(cs, validT);
    }
    assert SurvivorEngine.EngineResolved(cs, ValidInterval) == Ok(Timeline(TimelineOf(cs)));
  }

  lemma NothingMeans(cs: seq<Candidate>, t: Timestamp)
    requires cs == []
    ensures Meaning(cs, t) == NoCoverage
  {
  }

  /** Without a time axis, a read says of every instant what survived of the claims heard. */
  lemma AboutSurvives(strategy: Strategy, log: seq<Version>, validT: Timestamp, txT: Timestamp,
                      holder: Option<StableId>, h: Held)
    requires !strategy.ValidInterval?
    ensures var r := AboutLog(strategy, log, validT, txT, holder);
      var survived := SurvivorEngine.EngineResolved(Heard(log, txT, holder), strategy);
      && (survived.Err? <==> r.Err?)
      && (survived == Ok(Survivor(None)) <==> r == Ok(Unknown))
      && (survived == Ok(Survivor(Some(h))) <==>
            r == Ok(if h.Absent? then BelievesAbsent else Believes(h.text)))
  {
    hide Filter, FindFact, SurvivorEngine.EngineResolved;
    SurvivorsOnly(Heard(log, txT, holder), strategy);
    if Filter(VisibleTo(txT, holder), log) == [] {
      assert Heard(log, txT, holder) == [];
      NothingSurvives(strategy);
    }
  }

  // ----- order independence

  lemma {:induction false} FilterKeepsMultiset<T(!new)>(keep: T -> bool, s: seq<T>, x: T)
    ensures multiset(Filter(keep, s))[x] == if keep(x) then multiset(s)[x] else 0
  {
    if s != [] {
      FilterKeepsMultiset(keep, s[1..], x);
      assert s == [s[0]] + s[1..];
      assert multiset(s) == multiset{s[0]} + multiset(s[1..]);
      if keep(s[0]) {
        assert multiset([s[0]] + Filter(keep, s[1..])) == multiset{s[0]} + multiset(Filter(keep, s[1..]));
      }
    }
  }

  /** The claims heard depend only on which versions there are, not on their order. */
  lemma HeardMembers(a: seq<Version>, b: seq<Version>, txT: Timestamp, holder: Option<StableId>)
    requires multiset(a) == multiset(b)
    ensures forall c :: c in Heard(a, txT, holder) <==> c in Heard(b, txT, holder)
  {
    MultisetMembers(a, b);
    forall c ensures c in Heard(a, txT, holder) <==> c in Heard(b, txT, holder) {
      HeardIs(a, txT, holder, c);
      HeardIs(b, txT, holder, c);
    }
  }

  lemma HeardIs(log: seq<Version>, txT: Timestamp, holder: Option<StableId>, c: Candidate)
    ensures c in Heard(log, txT, holder) <==>
      exists v :: v in log && VisibleTo(txT, holder)(v) && CandidateOf(v) == c
  {
    var visible := Filter(VisibleTo(txT, holder), log);
    var cs := CandidatesOf(visible);
    if c in cs {
      var i :| 0 <= i < |cs| && cs[i] == c;
      assert visible[i] in visible;
    }
    if exists v :: v in log && VisibleTo(txT, holder)(v) && CandidateOf(v) == c {
      var v :| v in log && VisibleTo(txT, holder)(v) && CandidateOf(v) == c;
      assert v in visible;
      var i :| 0 <= i < |visible| && visible[i] == v;
      assert cs[i] == c;
    }
  }

  /** A version as the claim it makes: a value, or for a tombstone that there is none. */
  predicate ClaimedBy(v: Version, c: Candidate) {
    && c.provenance == v.provenance && c.valid == v.valid
    && c.value == Asserts(match v.value case Some(text) => Value(text) case None => Held.Absent)
  }

  /** What is heard: the claims of just the versions heard by then that this holder holds. */
  lemma HeardAre(log: seq<Version>, txT: Timestamp, holder: Option<StableId>, c: Candidate)
    ensures c in Heard(log, txT, holder) <==>
      exists v :: v in log && v.provenance.observedAt <= txT && v.accordingTo == holder && ClaimedBy(v, c)
  {
    HeardIs(log, txT, holder, c);
    hide Heard;
    forall v: Version ensures ClaimedBy(v, c) <==> CandidateOf(v) == c {}
  }

  /** Refusals compare as refusals. */
  predicate SameBelief(a: Result<Believed, Refused>, b: Result<Believed, Refused>) {
    (a.Err? && b.Err?) || a == b
  }

  /** Under `MostRecent` the engine's answer depends only on which claims there are. */
  lemma MostRecentIsOrderFree(a: seq<Candidate>, b: seq<Candidate>)
    requires AllClaims(a) && AllClaims(b) && a != [] && b != []
    requires forall c :: c in a <==> c in b
    ensures SurvivorEngine.EngineResolved(a, MostRecent) == SurvivorEngine.EngineResolved(b, MostRecent)
    ensures var r := SurvivorEngine.EngineResolved(a, MostRecent);
      r.Err? || r.value.Survivor?
  {
    hide SurvivorEngine.EngineResolved, Resolved, NoneLaterDiffers;
    forall h: Held ensures LastSaid(a, Anyone(), h) <==> LastSaid(b, Anyone(), h) {
      forall c ensures NoneLaterDiffers(a, Anyone(), c) <==> NoneLaterDiffers(b, Anyone(), c) {
        SameLaterDiffers(a, b, c);
      }
    }
    hide LastSaid;
    if h: Held :| LastSaid(a, Anyone(), h) {
      LatestIsLastSaid(a, h);
      LatestIsLastSaid(b, h);
    } else {
      LatestIsLastSaid(a, Absent);
      LatestIsLastSaid(b, Absent);
    }
  }

  lemma SameLaterDiffers(a: seq<Candidate>, b: seq<Candidate>, c: Candidate)
    requires forall d :: d in a <==> d in b
    ensures NoneLaterDiffers(a, Anyone(), c) <==> NoneLaterDiffers(b, Anyone(), c)
  {
  }

  /** Reordering a slot's versions changes no answer, under either strategy that reads by time. */
  lemma AboutIsOrderFree(strategy: Strategy, a: seq<Version>, b: seq<Version>,
                         validT: Timestamp, txT: Timestamp, holder: Option<StableId>)
    requires strategy == MostRecent || strategy == ValidInterval
    requires multiset(a) == multiset(b)
    ensures SameBelief(AboutLog(strategy, a, validT, txT, holder), AboutLog(strategy, b, validT, txT, holder))
  {
    hide Meaning, MostRecentOf, TimelineOf, Filter, HeldAt, SurvivorEngine.EngineResolved;
    HeardMembers(a, b, txT, holder);
    var ca, cb := Heard(a, txT, holder), Heard(b, txT, holder);
    if strategy == ValidInterval {
      AboutMeans(a, validT, txT, holder);
      AboutMeans(b, validT, txT, holder);
      MeaningIsOrderFree(ca, cb, validT);
    } else {
      SameEmptiness(ca, cb);
      if ca != [] {
        MostRecentIsOrderFree(ca, cb);
        SurvivorHeld(SurvivorEngine.EngineResolved(ca, MostRecent), validT);
        SurvivorHeld(SurvivorEngine.EngineResolved(cb, MostRecent), validT);
      }
    }
  }

  lemma SurvivorHeld(r: Result<Outcome, Refused>, t: Timestamp)
    ensures r.Ok? && r.value.Survivor? ==> HeldAt(r.value, t) == Ok(r.value.held)
  {
  }

  lemma SameEmptiness(a: seq<Candidate>, b: seq<Candidate>)
    requires forall c :: c in a <==> c in b
    ensures a == [] <==> b == []
  {
    if a != [] { assert a[0] in b; }
    if b != [] { assert b[0] in a; }
  }

  // ----- standing

  datatype Standing = Latest | Joined | Unsettled | Corrected {
    predicate StillStands() { !Corrected? }

    function Rank(): nat {
      match this case Latest => 0 case Joined => 1 case Unsettled => 2 case Corrected => 3
    }
  }

  function ClaimRank(claim: Supersession): nat {
    match claim case Joins => 1 case Unstated => 2 case Corrects => 3
  }

  /** Heard after `v` and no later than the horizon; versions of one instant do not order. */
  predicate Later(other: Version, at: Timestamp, horizon: Timestamp) {
    at < other.IngestedAt() <= horizon
  }

  predicate SomeLater(log: seq<Version>, at: Timestamp, horizon: Timestamp, rank: nat) {
    exists v :: v in log && Later(v, at, horizon) && ClaimRank(v.supersession) == rank
  }

  /** Where something heard at `at` stands against the rest of its slot. */
  function StandingOf(log: seq<Version>, at: Timestamp, horizon: Timestamp): Standing {
    if SomeLater(log, at, horizon, 3) then Corrected
    else if SomeLater(log, at, horizon, 2) then Unsettled
    else if SomeLater(log, at, horizon, 1) then Joined
    else Latest
  }

  method StandingIn(log: seq<Version>, version: Version, horizon: Timestamp) returns (r: Standing)
    ensures r == StandingOf(log, version.IngestedAt(), horizon)
  {
    var later := Filter((v: Version) => Later(v, version.IngestedAt(), horizon), log);
    if later == [] {
      forall v | v in log ensures !Later(v, version.IngestedAt(), horizon) {
        assert v !in later;
      }
      return Latest;
    }
    var unsettled := false;
    for i := 0 to |later|
      invariant forall j :: 0 <= j < i ==> !later[j].supersession.Corrects?
      invariant unsettled <==> exists j :: 0 <= j < i && later[j].supersession.Unstated?
    {
      assert later[i] in later;
      match later[i].supersession {
        case Corrects => return Corrected;
        case Unstated => unsettled := true;
        case Joins =>
      }
    }
    forall v | v in log && Later(v, version.IngestedAt(), horizon)
      ensures !v.supersession.Corrects? && (!unsettled ==> v.supersession.Joins?)
    {
      assert v in later;
      var j :| 0 <= j < |later| && later[j] == v;
    }
    assert later[0] in later;
    if unsettled {
      var j :| 0 <= j < |later| && later[j].supersession.Unstated?;
      assert later[j] in later;
      return Unsettled;
    }
    return Joined;
  }

  /** The standing is the strongest claim any later version makes, whatever their order. */
  lemma StandingIsStrongestClaim(log: seq<Version>, at: Timestamp, horizon: Timestamp)
    ensures var rank := StandingOf(log, at, horizon).Rank();
      && (forall v :: v in log && Later(v, at, horizon) ==> ClaimRank(v.supersession) <= rank)
      && (rank == 0 <==> forall v :: v in log ==> !Later(v, at, horizon))
      && (rank > 0 ==> exists v :: v in log && Later(v, at, horizon) && ClaimRank(v.supersession) == rank)
  {
    forall v | v in log && Later(v, at, horizon)
      ensures ClaimRank(v.supersession) <= StandingOf(log, at, horizon).Rank()
    {
      assert SomeLater(log, at, horizon, ClaimRank(v.supersession));
    }
  }

  /** Corrected by any later correction, else unsettled by any later doubt, else joined by anything later. */
  lemma StandingMeans(s: State, id: AssertionId, horizon: Timestamp, v: Version)
    requires Resolve(s, id) == Some(v)
    ensures var log := s.store.History(s.assertions[id].entity, s.assertions[id].attribute);
      var at := v.provenance.observedAt;
      AssertionStanding(s, id, horizon) == Some(
        if LaterSays(log, at, horizon, Corrects) then Corrected
        else if LaterSays(log, at, horizon, Unstated) then Unsettled
        else if LaterSays(log, at, horizon, Joins) then Joined
        else Latest)
  {
    var log := s.store.History(s.assertions[id].entity, s.assertions[id].attribute);
    var at := v.provenance.observedAt;
    assert LaterSays(log, at, horizon, Corrects) <==> SomeLater(log, at, horizon, 3);
    assert LaterSays(log, at, horizon, Unstated) <==> SomeLater(log, at, horizon, 2);
    assert LaterSays(log, at, horizon, Joins) <==> SomeLater(log, at, horizon, 1);
  }

  /** Something heard after `at`, and by the horizon, says this of what came before it. */
  ghost predicate LaterSays(log: seq<Version>, at: Timestamp, horizon: Timestamp, claim: Supersession) {
    exists v :: v in log && at < v.provenance.observedAt <= horizon && v.supersession == claim
  }

  /** A version and what a merge may make of it: the same, or its tombstone now a correction. */
  predicate CarriedAs(v: Version, w: Version) {
    w == v || w == Written(v)
  }

  ghost predicate LogCarried(log: seq<Version>, log': seq<Version>) {
    forall v :: v in log ==> exists w :: w in log' && CarriedAs(v, w)
  }

  /** Whatever a log becomes, so long as nothing is lost, a standing in it only climbs. */
  lemma CarryingClimbs(log: seq<Version>, log': seq<Version>, at: Timestamp, horizon: Timestamp)
    requires LogCarried(log, log')
    ensures StandingOf(log, at, horizon).Rank() <= StandingOf(log', at, horizon).Rank()
  {
    StandingIsStrongestClaim(log, at, horizon);
    StandingIsStrongestClaim(log', at, horizon);
    var rank := StandingOf(log, at, horizon).Rank();
    if rank > 0 {
      var v :| v in log && Later(v, at, horizon) && ClaimRank(v.supersession) == rank;
      var w :| w in log' && CarriedAs(v, w);
      assert Later(w, at, horizon);
    }
  }

  /** Where an assertion stands in a state, when its reference is good. */
  function AssertionStanding(s: State, id: AssertionId, horizon: Timestamp): Option<Standing> {
    match Resolve(s, id)
    case None => None
    case Some(version) =>
      var at := s.assertions[id];
      Some(StandingOf(s.store.History(at.entity, at.attribute), version.IngestedAt(), horizon))
  }

  // ----- the filters of a recall

  datatype AsOf = AsOf(validT: Timestamp, txT: Timestamp)

  datatype Query = Query(
    asOf: Option<AsOf>,
    entity: Option<StableId>,
    source: Option<Source>,
    session: Option<string>,
    position: Option<string>)

  /** The last element satisfying a predicate: `rfind`. */
  function LastWhere<T>(keep: T -> bool, s: seq<T>): (r: Option<T>)
    ensures r.Some? ==> r.value in s && keep(r.value)
  {
    if s == [] then None
    else if keep(s[|s| - 1]) then Some(s[|s| - 1])
    else LastWhere(keep, s[..|s| - 1])
  }

  /** The scope an entity's assertions are recorded under, as the query's own clocks see it. */
  function ScopeOf(s: State, entity: StableId, asOf: Option<AsOf>): Option<string> {
    ScopeFrom(s.store.History(entity, "scope"), asOf)
  }

  function KnownBy(asOf: Option<AsOf>): Version -> bool {
    var clocks := if asOf.Some? then asOf.value else AsOf(MAX_TIME, MAX_TIME);
    (v: Version) => v.IngestedAt() <= clocks.txT && v.valid.from <= clocks.validT
  }

  function ScopeFrom(log: seq<Version>, asOf: Option<AsOf>): Option<string> {
    match LastWhere(KnownBy(asOf), log)
    case None => None
    case Some(v) => v.value
  }

  /** Whether one assertion passes a query's filters. */
  predicate InScope(s: State, id: AssertionId, q: Query) {
    id in s.assertions && Admits(s, s.assertions[id], q)
  }

  predicate Admits(s: State, at: AssertionRef, q: Query) {
    && (q.entity.Some? ==> q.entity.value == at.entity)
    && at.version < |s.store.History(at.entity, at.attribute)|
    && (q.position.Some? ==> Reaches(ScopeOf(s, at.entity, q.asOf), q.position.value))
    && AdmitsVersion(s.store.History(at.entity, at.attribute)[at.version], q)
  }

  /** The filters in the order a recall applies them, giving up at the first that fails. */
  method PassesFilters(s: State, id: AssertionId, q: Query) returns (ok: bool)
    ensures ok == InScope(s, id, q)
  {
    hide Scope.AppliesAt, LastWhere;
    if id !in s.assertions {
      return false;
    }
    var entry := s.assertions[id];
    if q.entity.Some? && q.entity.value != entry.entity {
      return false;
    }
    var log := s.store.History(entry.entity, entry.attribute);
    if entry.version >= |log| {
      return false;
    }
    var version := log[entry.version];
    if q.session.Some? && version.provenance.sourceRef != q.session.value {
      return false;
    }
    if q.source.Some? && version.provenance.source != q.source.value {
      return false;
    }
    if q.position.Some? {
      var reach := ScopeAt(s.store.History(entry.entity, "scope"), q.asOf);
      if reach.Some? && !Scope.AppliesAt(reach.value, q.position.value) {
        return false;
      }
    }
    if q.asOf.Some? {
      if version.IngestedAt() > q.asOf.value.txT || !version.valid.Contains(q.asOf.value.validT) {
        return false;
      }
    }
    return true;
  }

  /** The last version of the scope known on both of the query's clocks, searched from the end. */
  method ScopeAt(log: seq<Version>, asOf: Option<AsOf>) returns (reach: Option<string>)
    ensures reach == ScopeFrom(log, asOf)
  {
    var validT, txT := MAX_TIME, MAX_TIME;
    if asOf.Some? {
      validT, txT := asOf.value.validT, asOf.value.txT;
    }
    var i := |log|;
    assert log[..i] == log;
    while i > 0
      invariant i <= |log| && LastWhere(KnownBy(asOf), log) == LastWhere(KnownBy(asOf), log[..i])
    {
      i := i - 1;
      assert log[..i + 1][..i] == log[..i];
      if log[i].provenance.observedAt <= txT && log[i].valid.from <= validT {
        return log[i].value;
      }
    }
    return None;
  }

  /** No scope recorded reaches everywhere. */
  predicate Reaches(scope: Option<string>, position: string) {
    scope.Some? ==> Scope.AppliesAt(scope.value, position)
  }

  predicate AdmitsVersion(version: Version, q: Query) {
    && (q.session.Some? ==> version.provenance.sourceRef == q.session.value)
    && (q.source.Some? ==> version.provenance.source == q.source.value)
    && (q.asOf.Some? ==> version.IngestedAt() <= q.asOf.value.txT && version.valid.Contains(q.asOf.value.validT))
  }

  /** The last version of a log an asker with these clocks knows of. */
  ghost predicate LastKnown(log: seq<Version>, asOf: Option<AsOf>, i: nat) {
    i < |log| && Known(log[i], asOf) && forall j :: i < j < |log| ==> !Known(log[j], asOf)
  }

  ghost predicate Known(v: Version, asOf: Option<AsOf>) {
    asOf.Some? ==> v.provenance.observedAt <= asOf.value.txT && v.valid.from <= asOf.value.validT
  }

  /** A version from where the query asks, heard by then and holding then. */
  ghost predicate Asked(v: Version, q: Query) {
    && (q.session.Some? ==> v.provenance.sourceRef == q.session.value)
    && (q.source.Some? ==> v.provenance.source == q.source.value)
    && (q.asOf.Some? ==>
          v.provenance.observedAt <= q.asOf.value.txT && v.valid.from <= q.asOf.value.validT
          && (v.valid.to.Some? ==> q.asOf.value.validT < v.valid.to.value))
  }

  /**
   What the filters admit: an assertion that stands, of the entity asked about if any, that reads a
   version asked for; and asked from a position, only where no scope is known to be recorded for the
   entity or the last one known reaches there.
   */
  lemma FiltersAdmit(s: State, id: AssertionId, q: Query)
    ensures InScope(s, id, q) <==>
      && Resolve(s, id).Some? && Asked(Resolve(s, id).value, q)
      && (q.entity.Some? ==> s.assertions[id].entity == q.entity.value)
      && (q.position.Some? ==>
            var log := s.store.History(s.assertions[id].entity, "scope");
            forall i: nat :: LastKnown(log, q.asOf, i) && log[i].value.Some? ==>
              Scope.AppliesAt(log[i].value.value, q.position.value))
  {
    if id in s.assertions {
      ScopeIsLastKnown(s.store.History(s.assertions[id].entity, "scope"), q.asOf);
      SomeLastKnown(s.store.History(s.assertions[id].entity, "scope"), q.asOf);
      hide Scope.AppliesAt, ScopeFrom, LastKnown, MemoryStore.History;
    }
  }

  lemma SomeLastKnown(log: seq<Version>, asOf: Option<AsOf>)
    ensures ScopeFrom(log, asOf).Some? ==> exists i: nat :: LastKnown(log, asOf, i)
  {
    ScopeIsLastKnown(log, asOf);
  }

  lemma {:induction false} ScopeIsLastKnown(log: seq<Version>, asOf: Option<AsOf>)
    ensures forall i: nat :: LastKnown(log, asOf, i) ==> ScopeFrom(log, asOf) == log[i].value
    ensures (forall i: nat :: !LastKnown(log, asOf, i)) ==> ScopeFrom(log, asOf).None?
  {
    if log != [] {
      var front := log[..|log| - 1];
      assert KnownBy(asOf)(log[|log| - 1]) <==> Known(log[|log| - 1], asOf);
      if Known(log[|log| - 1], asOf) {
        assert LastKnown(log, asOf, |log| - 1);
      } else {
        ScopeIsLastKnown(front, asOf);
        forall i: nat ensures LastKnown(log, asOf, i) <==> LastKnown(front, asOf, i) {}
      }
    }
  }

  /** Standing deeper only ever admits more: everything an ancestor position sees is still seen. */
  lemma DeeperSeesMore(s: State, id: AssertionId, q: Query, above: string, below: string)
    requires Scope.AppliesAt(above, below)
    requires InScope(s, id, q.(position := Some(above)))
    ensures InScope(s, id, q.(position := Some(below)))
  {
    var reach := ScopeOf(s, s.assertions[id].entity, q.asOf);
    if reach.Some? {
      Scope.ReachIsPartialOrder(reach.value, above, below);
    }
  }

  // ----- demoting the replaced

  datatype Recalled = Recalled(assertion: AssertionId, entity: StableId, attribute: string, standing: Standing)

  predicate SameSlot(a: Recalled, b: Recalled) {
    a.entity == b.entity && a.attribute == b.attribute
  }

  /** A corrected hit beside a live one of its slot. */
  predicate Outranked(corrected: Recalled, live: Recalled) {
    && corrected.entity == live.entity && corrected.attribute == live.attribute
    && corrected.standing == Corrected && live.standing != Corrected
  }

  /** A corrected hit whose slot has a live answer among the hits. */
  predicate Falls(hits: seq<Recalled>, h: Recalled) {
    !h.standing.StillStands() && exists live :: live in hits && live.standing.StillStands() && SameSlot(live, h)
  }

  function Falling(hits: seq<Recalled>): Recalled -> bool {
    (h: Recalled) => Falls(hits, h)
  }

  function Staying(hits: seq<Recalled>): Recalled -> bool {
    (h: Recalled) => !Falls(hits, h)
  }

  /** Everything that stays, then everything that falls, each in the order it came. */
  function Demoted(hits: seq<Recalled>): seq<Recalled> {
    Filter(Staying(hits), hits) + Filter(Falling(hits), hits)
  }

  function Band(demoted: seq<bool>): nat -> Key {
    (i: nat) => (if i < |demoted| && demoted[i] then 1 else 0, 0)
  }

  function InBand(demoted: seq<bool>, band: bool): nat -> bool {
    (i: nat) => i < |demoted| && demoted[i] == band
  }

  function At<T>(s: seq<T>, order: seq<nat>): (r: seq<T>)
    requires forall i :: i in order ==> i < |s|
    ensures |r| == |order|
    ensures forall k :: 0 <= k < |order| ==> order[k] in order && r[k] == s[order[k]]
  {
    seq(|order|, k requires 0 <= k < |order| => assert order[k] in order; s[order[k]])
  }

  method DemoteReplaced(hits: seq<Recalled>) returns (out: seq<Recalled>)
    ensures out == Demoted(hits)
  {
    hide Demoted, SortBy, Falls;
    var live := set h | h in hits && h.standing.StillStands() :: (h.entity, h.attribute);
    var demoted: seq<bool> := seq(|hits|, i requires 0 <= i < |hits| =>
      !hits[i].standing.StillStands() && (hits[i].entity, hits[i].attribute) in live);
    forall i | 0 <= i < |hits| ensures demoted[i] == Falls(hits, hits[i]) {
      FallsIffListed(hits, hits[i]);
    }
    var order := SortBy(Band(demoted), Numbers(0, |hits|));
    OrderIsDemoted(hits, demoted, order);
    out := [];
    for k := 0 to |order|
      invariant out == At(hits, order)[..k]
    {
      out := out + [hits[order[k]]];
    }
  }

  lemma FallsIffListed(hits: seq<Recalled>, h: Recalled)
    ensures var live := set x | x in hits && x.standing.StillStands() :: (x.entity, x.attribute);
      !h.standing.StillStands() && (h.entity, h.attribute) in live <==> Falls(hits, h)
  {
  }

  lemma OrderIsDemoted(hits: seq<Recalled>, demoted: seq<bool>, order: seq<nat>)
    requires |demoted| == |hits| && forall i :: 0 <= i < |hits| ==> demoted[i] == Falls(hits, hits[i])
    requires order == SortBy(Band(demoted), Numbers(0, |hits|))
    ensures forall i :: i in order ==> i < |hits|
    ensures At(hits, order) == Demoted(hits)
  {
    hide SortBy, Falls, Filter;
    var all := Numbers(0, |hits|);
    MultisetMembers(order, all);
    var stay: seq<nat>, fall: seq<nat> :=
      Filter<nat>(InBand(demoted, false), all), Filter<nat>(InBand(demoted, true), all);
    OrderIsBands(demoted, order, all);
    FilterAt(hits, demoted, false, Staying(hits), |hits|);
    FilterAt(hits, demoted, true, Falling(hits), |hits|);
    assert hits[..|hits|] == hits;
    AtBoth(hits, stay, fall);
  }

  lemma AtBoth<T>(s: seq<T>, a: seq<nat>, b: seq<nat>)
    requires forall i :: i in a || i in b ==> i < |s|
    ensures forall i :: i in a + b ==> i < |s|
    ensures At(s, a + b) == At(s, a) + At(s, b)
  {
  }

  lemma OrderIsBands(demoted: seq<bool>, order: seq<nat>, all: seq<nat>)
    requires order == SortBy(Band(demoted), all) && forall i :: i in all ==> i < |demoted|
    ensures order == Filter<nat>(InBand(demoted, false), all) + Filter<nat>(InBand(demoted, true), all)
  {
    hide SortBy, Filter;
    MultisetMembers(order, all);
    SortSorts(Band(demoted), all);
    SortIsStable(Band(demoted), InBand(demoted, false), all);
    SortIsStable(Band(demoted), InBand(demoted, true), all);
    TwoBands(demoted, order);
  }

  /** A sequence sorted by band is its low band followed by its high one. */
  lemma {:induction false} TwoBands(demoted: seq<bool>, order: seq<nat>)
    requires SortedBy(Band(demoted), order) && forall i :: i in order ==> i < |demoted|
    ensures order == Filter(InBand(demoted, false), order) + Filter(InBand(demoted, true), order)
  {
    hide Filter;
    if order == [] {
      FilterNothing<nat>(InBand(demoted, false));
      FilterNothing<nat>(InBand(demoted, true));
    } else {
      var rest := order[1..];
      assert order[0] in order;
      RestIsSorted(demoted, order);
      TwoBands(demoted, rest);
      hide SortedBy;
      FilterFirst(InBand(demoted, false), order);
      FilterFirst(InBand(demoted, true), order);
      assert order == [order[0]] + rest;
      if demoted[order[0]] {
        FilterNone(InBand(demoted, false), rest);
      }
    }
  }

  lemma RestIsSorted(demoted: seq<bool>, order: seq<nat>)
    requires SortedBy(Band(demoted), order) && forall i :: i in order ==> i < |demoted|
    requires order != []
    ensures SortedBy(Band(demoted), order[1..]) && forall i :: i in order[1..] ==> i in order
    ensures order[0] in order && demoted[order[0]] ==> forall i :: i in order[1..] ==> !InBand(demoted, false)(i)
  {
    assert order[0] in order;
    if demoted[order[0]] { AllHigh(demoted, order); }
  }

  lemma AllHigh(demoted: seq<bool>, order: seq<nat>)
    requires SortedBy(Band(demoted), order) && forall i :: i in order ==> i < |demoted|
    requires order != [] && order[0] < |demoted| && demoted[order[0]]
    ensures forall i :: i in order[1..] ==> !InBand(demoted, false)(i)
  {
    var rest := order[1..];
    forall i | i in rest ensures !InBand(demoted, false)(i) {
      var k :| 0 <= k < |rest| && rest[k] == i;
      assert order[k + 1] in order;
      assert AtMost(Band(demoted)(order[0]), Band(demoted)(order[k + 1]));
    }
  }

  /** Filtering positions and then reading is reading and then filtering. */
  lemma {:induction false} FilterAt(hits: seq<Recalled>, demoted: seq<bool>, band: bool, keep: Recalled -> bool, n: nat)
    requires |demoted| == |hits| && n <= |hits|
    requires forall i :: 0 <= i < |hits| ==> (demoted[i] == band <==> keep(hits[i]))
    ensures forall i :: i in Filter<nat>(InBand(demoted, band), Numbers(0, n)) ==> i < |hits|
    ensures At(hits, Filter<nat>(InBand(demoted, band), Numbers(0, n))) == Filter(keep, hits[..n])
  {
    hide Filter;
    if n == 0 {
      FilterNothing<nat>(InBand(demoted, band));
      assert hits[..0] == [] && Numbers(0, 0) == [];
      FilterNone(keep, hits[..0]);
    } else {
      FilterAt(hits, demoted, band, keep, n - 1);
      assert Numbers(0, n) == Numbers(0, n - 1) + [n - 1];
      assert hits[..n] == hits[..n - 1] + [hits[n - 1]];
      FilterOneMore<nat>(InBand(demoted, band), Numbers(0, n - 1), n - 1);
      FilterOneMore(keep, hits[..n - 1], hits[n - 1]);
    }
  }

  /**
   The result is a permutation; nothing that falls is ahead of anything that stays; and a live
   hit is ahead of every corrected one in its slot.
   */
  lemma DemotionIsStablePartition(hits: seq<Recalled>)
    ensures multiset(Demoted(hits)) == multiset(hits)
    ensures var out := Demoted(hits);
      forall i, j :: 0 <= i < |out| && 0 <= j < |out| && Falls(hits, out[i]) && !Falls(hits, out[j]) ==> j < i
    ensures var out := Demoted(hits);
      forall i, j :: 0 <= i < |out| && 0 <= j < |out| && Outranked(out[i], out[j]) ==> j < i
    ensures Filter(Staying(hits), Demoted(hits)) == Filter(Staying(hits), hits)
    ensures Filter(Falling(hits), Demoted(hits)) == Filter(Falling(hits), hits)
  {
    hide Falls, Filter, Outranked;
    DemotionPermutes(hits);
    DemotionKeepsOrder(hits);
    DemotionPlaces(hits);
    var out := Demoted(hits);
    MultisetMembers(out, hits);
    forall i, j | 0 <= i < |out| && 0 <= j < |out| && Outranked(out[i], out[j])
      ensures Falls(hits, out[i]) && !Falls(hits, out[j])
    {
      assert out[j] in out && out[j] in hits;
      CorrectedFalls(hits, out[i], out[j]);
    }
  }

  /** What falls is a corrected hit whose slot has a live one, and nothing else. */
  lemma FallsIffOutranked(hits: seq<Recalled>, h: Recalled)
    ensures Falls(hits, h) <==> exists live :: live in hits && Outranked(h, live)
  {
  }

  lemma DemotionPermutes(hits: seq<Recalled>)
    ensures multiset(Demoted(hits)) == multiset(hits)
  {
    hide Falls, Filter;
    var stay, fall, out := Filter(Staying(hits), hits), Filter(Falling(hits), hits), Demoted(hits);
    assert multiset(out) == multiset(stay) + multiset(fall);
    forall x ensures multiset(out)[x] == multiset(hits)[x] {
      FilterKeepsMultiset(Staying(hits), hits, x);
      FilterKeepsMultiset(Falling(hits), hits, x);
    }
  }

  /** What falls is exactly what stands past the last hit that stays. */
  lemma DemotionPlaces(hits: seq<Recalled>)
    ensures var out, n := Demoted(hits), |Filter(Staying(hits), hits)|;
      forall i :: 0 <= i < |out| ==> (Falls(hits, out[i]) <==> n <= i)
  {
    hide Falls, Filter;
    var stay, fall, out := Filter(Staying(hits), hits), Filter(Falling(hits), hits), Demoted(hits);
    forall i | 0 <= i < |out| ensures Falls(hits, out[i]) <==> |stay| <= i {
      if i < |stay| { assert out[i] == stay[i] && stay[i] in stay; }
      else { assert out[i] == fall[i - |stay|] && fall[i - |stay|] in fall; }
    }
  }

  lemma DemotionKeepsOrder(hits: seq<Recalled>)
    ensures Filter(Staying(hits), Demoted(hits)) == Filter(Staying(hits), hits)
    ensures Filter(Falling(hits), Demoted(hits)) == Filter(Falling(hits), hits)
  {
    hide Falls, Filter;
    var stay, fall := Filter(Staying(hits), hits), Filter(Falling(hits), hits);
    FilterAppend(Staying(hits), stay, fall);
    FilterAppend(Falling(hits), stay, fall);
    FilterAll(Staying(hits), stay);
    FilterNone(Staying(hits), fall);
    FilterNone(Falling(hits), stay);
    FilterAll(Falling(hits), fall);
    assert stay + [] == stay && [] + fall == fall;
  }

  lemma CorrectedFalls(hits: seq<Recalled>, corrected: Recalled, live: Recalled)
    requires live in hits && Outranked(corrected, live)
    ensures Falls(hits, corrected) && !Falls(hits, live)
  {
    assert SameSlot(live, corrected);
  }
}
