/**
 The benchmark's histories and questions, the oracle `TruthOf` that answers from the writes alone,
 and its agreement with what the timeline means.
 */
module Workload {
  import opened Core
  import opened Ordering
  import opened Survivorship
  import opened TimelineLaws
  import opened Store
  import opened Read

  /** One value or, for `None`, one tombstone, with its instant on each clock. */
  datatype WriteEvent = WriteEvent(entity: nat, value: Option<string>, validFrom: Timestamp, observedAt: Timestamp)

  datatype Question = Question(entity: nat, validT: Timestamp, txT: Timestamp)

  datatype Workload = Workload(writes: seq<WriteEvent>, queries: seq<Question>)

  datatype Truth = TruthValue(value: Option<string>) | Ambiguous | Nothing

  // ----- the oracle

  predicate Seen(q: Question, x: WriteEvent) {
    x.entity == q.entity && x.observedAt <= q.txT && x.validFrom <= q.validT
  }

  function Sees(q: Question): WriteEvent -> bool {
    (x: WriteEvent) => Seen(q, x)
  }

  function Clocks(x: WriteEvent): Key { (x.validFrom, x.observedAt) }

  /** The writes that count, latest last. */
  function Visible(writes: seq<WriteEvent>, q: Question): seq<WriteEvent> {
    SortBy(Clocks, Filter(Sees(q), writes))
  }

  predicate Tied(visible: seq<WriteEvent>, winner: WriteEvent) {
    exists x :: x in visible && Clocks(x) == Clocks(winner) && x.value != winner.value
  }

  /** The greatest by `validFrom` then `observedAt`; two values sharing both have no answer. */
  function TruthOf(writes: seq<WriteEvent>, q: Question): Truth {
    var visible := Visible(writes, q);
    if visible == [] then Nothing
    else
      var winner := visible[|visible| - 1];
      if Tied(visible, winner) then Ambiguous else TruthValue(winner.value)
  }

  lemma VisibleAreSeen(writes: seq<WriteEvent>, q: Question)
    ensures forall x :: x in Visible(writes, q) <==> x in writes && Seen(q, x)
  {
    hide SortBy, Filter;
    var seen := Filter(Sees(q), writes);
    MultisetMembers(SortBy(Clocks, seen), seen);
  }

  /** What the oracle picks: a visible write no visible write's clocks exceed. */
  lemma WinnerIsLatest(writes: seq<WriteEvent>, q: Question)
    requires Visible(writes, q) != []
    ensures var visible := Visible(writes, q);
      forall x :: x in visible ==> AtMost(Clocks(x), Clocks(visible[|visible| - 1]))
  {
    hide SortBy, Filter;
    var visible := Visible(writes, q);
    SortSorts(Clocks, Filter(Sees(q), writes));
    forall x | x in visible ensures AtMost(Clocks(x), Clocks(visible[|visible| - 1])) {
      var i :| 0 <= i < |visible| && visible[i] == x;
    }
  }

  // ----- what the store holds after the writes

  function VersionOf(x: WriteEvent): Version {
    Version(x.value, Since(x.validFrom), Provenance(UserAssertion, x.observedAt, "contrast"), Unstated, None)
  }

  /** The log one entity's writes leave, in arrival order. */
  function StoredLog(writes: seq<WriteEvent>, entity: nat): seq<Version> {
    if writes == [] then []
    else
      var last := writes[|writes| - 1];
      StoredLog(writes[..|writes| - 1], entity) + (if last.entity == entity then [Written(VersionOf(last))] else [])
  }

  lemma {:induction false} StoredMembers(writes: seq<WriteEvent>, entity: nat, v: Version)
    ensures v in StoredLog(writes, entity) <==>
      exists x :: x in writes && x.entity == entity && Written(VersionOf(x)) == v
  {
    if writes != [] {
      var front, last := writes[..|writes| - 1], writes[|writes| - 1];
      StoredMembers(front, entity, v);
      assert forall x :: x in writes <==> x in front || x == last by {
        assert writes == front + [last];
      }
    }
  }

  /** The claim a write makes once it is heard. */
  function ClaimOf(x: WriteEvent): (c: Candidate)
    ensures IsClaim(c) && c.value == Asserts(if x.value.Some? then Value(x.value.value) else Held.Absent)
    ensures ClaimKey(c) == Clocks(x)
  {
    CandidateOf(VersionOf(x))
  }

  /** Whether a claim is one the entity's writes made by the time asked about. */
  predicate Claimed(writes: seq<WriteEvent>, q: Question, c: Candidate) {
    exists x :: x in writes && x.entity == q.entity && x.observedAt <= q.txT && ClaimOf(x) == c
  }

  lemma HeardClaims(writes: seq<WriteEvent>, q: Question)
    ensures var cs := Heard(StoredLog(writes, q.entity), q.txT, None);
      forall c :: c in cs <==> Claimed(writes, q, c)
  {
    var log := StoredLog(writes, q.entity);
    forall c ensures c in Heard(log, q.txT, None) <==> Claimed(writes, q, c)
    {
      HeardIs(log, q.txT, None, c);
      if c in Heard(log, q.txT, None) {
        var v :| v in log && VisibleTo(q.txT, None)(v) && CandidateOf(v) == c;
        StoredMembers(writes, q.entity, v);
        var x :| x in writes && x.entity == q.entity && Written(VersionOf(x)) == v;
        assert ClaimOf(x) == c;
      }
      if Claimed(writes, q, c) {
        var x :| x in writes && x.entity == q.entity && x.observedAt <= q.txT && ClaimOf(x) == c;
        var v := Written(VersionOf(x));
        StoredMembers(writes, q.entity, v);
        assert VisibleTo(q.txT, None)(v) && CandidateOf(v) == c;
      }
    }
  }

  function AnswerOfTruth(t: Truth): Answer {
    match t
    case Nothing => NoCoverage
    case Ambiguous => Refuses
    case TruthValue(Some(text)) => Holding(Value(text))
    case TruthValue(None) => Holding(Held.Absent)
  }

  /** The oracle and the declarative reading of the claims are one thing. */
  lemma TruthIsMeaning(writes: seq<WriteEvent>, q: Question)
    ensures AnswerOfTruth(TruthOf(writes, q)) == Meaning(Heard(StoredLog(writes, q.entity), q.txT, None), q.validT)
  {
    hide Visible, Heard, Meaning, Tied, Claimed;
    var visible := Visible(writes, q);
    var cs := Heard(StoredLog(writes, q.entity), q.txT, None);
    VisibleAreSeen(writes, q);
    HeardClaims(writes, q);
    ClaimsOfVisible(writes, q, cs, visible);
    if visible == [] {
      NothingGoverns(q, cs, visible);
    } else {
      WinnerIsLatest(writes, q);
      var winner := visible[|visible| - 1];
      assert winner in visible;
      GovernorsAreTied(q, cs, visible, winner);
      TiedMeaning(q, cs, visible, winner);
    }
  }

  /** A claim that has begun to hold by the time asked about is a visible write's. */
  ghost predicate OfVisible(q: Question, cs: seq<Candidate>, visible: seq<WriteEvent>) {
    && (forall x :: x in visible ==> ClaimOf(x) in cs && x.validFrom <= q.validT)
    && (forall c :: c in cs && c.valid.from <= q.validT ==> exists x :: x in visible && ClaimOf(x) == c)
  }

  lemma ClaimsOfVisible(writes: seq<WriteEvent>, q: Question, cs: seq<Candidate>, visible: seq<WriteEvent>)
    requires forall x :: x in visible <==> x in writes && Seen(q, x)
    requires forall c :: c in cs <==> Claimed(writes, q, c)
    ensures OfVisible(q, cs, visible)
  {
    forall x | x in visible ensures ClaimOf(x) in cs && x.validFrom <= q.validT {
      assert x in writes && Seen(q, x);
      assert Claimed(writes, q, ClaimOf(x));
    }
    forall c | c in cs && c.valid.from <= q.validT ensures exists x :: x in visible && ClaimOf(x) == c {
      assert Claimed(writes, q, c);
      var x :| x in writes && x.entity == q.entity && x.observedAt <= q.txT && ClaimOf(x) == c;
      assert x in visible;
    }
  }

  lemma NothingGoverns(q: Question, cs: seq<Candidate>, visible: seq<WriteEvent>)
    requires AllClaims(cs) && OfVisible(q, cs, visible) && visible == []
    ensures Meaning(cs, q.validT) == NoCoverage
  {
    forall c ensures !Governs(cs, c, q.validT) {}
  }

  ghost predicate GovernTied(q: Question, cs: seq<Candidate>, visible: seq<WriteEvent>, winner: WriteEvent) {
    && (forall x :: x in visible && Clocks(x) == Clocks(winner) ==> Governs(cs, ClaimOf(x), q.validT))
    && (forall c :: Governs(cs, c, q.validT) ==>
          exists x :: x in visible && Clocks(x) == Clocks(winner) && ClaimOf(x) == c)
  }

  /** The governing claims are exactly those of the visible writes sharing the winner's clocks. */
  lemma GovernorsAreTied(q: Question, cs: seq<Candidate>, visible: seq<WriteEvent>, winner: WriteEvent)
    requires AllClaims(cs) && OfVisible(q, cs, visible) && winner in visible
    requires forall x :: x in visible ==> AtMost(Clocks(x), Clocks(winner))
    ensures GovernTied(q, cs, visible, winner)
  {
    forall x | x in visible && Clocks(x) == Clocks(winner) ensures Governs(cs, ClaimOf(x), q.validT) {
      forall d | d in cs && d.valid.from <= q.validT ensures AtMost(ClaimKey(d), ClaimKey(ClaimOf(x))) {
        var y :| y in visible && ClaimOf(y) == d;
        assert AtMost(Clocks(y), Clocks(winner));
      }
    }
    forall c | Governs(cs, c, q.validT)
      ensures exists x :: x in visible && Clocks(x) == Clocks(winner) && ClaimOf(x) == c
    {
      var x :| x in visible && ClaimOf(x) == c;
      assert AtMost(ClaimKey(ClaimOf(winner)), ClaimKey(c));
      assert AtMost(Clocks(x), Clocks(winner));
    }
  }

  lemma TiedMeaning(q: Question, cs: seq<Candidate>, visible: seq<WriteEvent>, winner: WriteEvent)
    requires AllClaims(cs) && winner in visible && GovernTied(q, cs, visible, winner)
    ensures Meaning(cs, q.validT) ==
      AnswerOfTruth(if Tied(visible, winner) then Ambiguous else TruthValue(winner.value))
  {
    hide Governs, Clocks;
    assert Governs(cs, ClaimOf(winner), q.validT);
    if Tied(visible, winner) {
      var x :| x in visible && Clocks(x) == Clocks(winner) && x.value != winner.value;
      assert Governs(cs, ClaimOf(x), q.validT) && ClaimOf(x).value != ClaimOf(winner).value;
    } else {
      forall c | Governs(cs, c, q.validT) ensures c.value == ClaimOf(winner).value {
        var x :| x in visible && Clocks(x) == Clocks(winner) && ClaimOf(x) == c;
      }
    }
  }

  /**
   For every set of open-ended writes and every question, the store's interval read of that
   entity's log answers exactly as the oracle does: value for value, absence for absence,
   no coverage for nothing, and a refusal exactly where the oracle finds no answer.
   */
  lemma StoreAnswersTruth(writes: seq<WriteEvent>, q: Question)
    ensures AnswerOfBelief(AboutLog(ValidInterval, StoredLog(writes, q.entity), q.validT, q.txT, None)) ==
      AnswerOfTruth(TruthOf(writes, q))
  {
    AboutMeans(StoredLog(writes, q.entity), q.validT, q.txT, None);
    TruthIsMeaning(writes, q);
  }

  /** Two writes about one entity share the greatest clocks seen, and disagree. */
  ghost predicate TiedFor(writes: seq<WriteEvent>, q: Question, x: WriteEvent, y: WriteEvent) {
    && x in writes && y in writes && Seen(q, x) && Seen(q, y)
    && Clocks(x) == Clocks(y) && x.value != y.value
    && forall z :: z in writes && Seen(q, z) ==> AtMost(Clocks(z), Clocks(x))
  }

  /** A tie refuses exactly the instants it decides. */
  lemma RefusesExactlyTies(writes: seq<WriteEvent>, q: Question)
    ensures AboutLog(ValidInterval, StoredLog(writes, q.entity), q.validT, q.txT, None).Err? <==>
      exists x, y :: TiedFor(writes, q, x, y)
  {
    hide Visible, AboutLog;
    StoreAnswersTruth(writes, q);
    VisibleAreSeen(writes, q);
    var visible := Visible(writes, q);
    forall x, y | TiedFor(writes, q, x, y) ensures visible != [] { assert x in visible; }
    if visible != [] {
      WinnerIsLatest(writes, q);
      var winner := visible[|visible| - 1];
      assert winner in visible;
      if Tied(visible, winner) {
        var x :| x in visible && Clocks(x) == Clocks(winner) && x.value != winner.value;
        assert TiedFor(writes, q, x, winner);
      }
      if x, y :| TiedFor(writes, q, x, y) {
        assert x in visible && y in visible;
        assert Clocks(x) == Clocks(winner);
        assert x.value != winner.value || y.value != winner.value;
      }
    }
  }

  /** A history with a tie in it: refused where the tie decides, answered at the instant before. */
  lemma TieLeavesThePast(entity: nat, before: Option<string>, one: Option<string>, other: Option<string>,
                         t: Timestamp)
    requires t < MAX_TIME && one != other
    ensures var writes := [WriteEvent(entity, before, t, t), WriteEvent(entity, one, t + 1, t + 1),
                           WriteEvent(entity, other, t + 1, t + 1)];
      var log := StoredLog(writes, entity);
      && AboutLog(ValidInterval, log, t + 1, t + 1, None).Err?
      && AboutLog(ValidInterval, log, t, t + 1, None) ==
           Ok(match before case Some(text) => Believes(text) case None => BelievesAbsent)
  {
    hide AboutLog, Visible, StoredLog;
    var was, x, y := WriteEvent(entity, before, t, t), WriteEvent(entity, one, t + 1, t + 1),
                     WriteEvent(entity, other, t + 1, t + 1);
    var writes := [was, x, y];
    assert x in writes && y in writes;
    var late, early := Question(entity, t + 1, t + 1), Question(entity, t, t + 1);
    assert TiedFor(writes, late, x, y);
    RefusesExactlyTies(writes, late);
    StoreAnswersTruth(writes, early);
    VisibleAreSeen(writes, early);
    var visible := Visible(writes, early);
    assert was in writes;
    assert was in visible;
    assert visible[|visible| - 1] in visible;
  }

  // ----- the generator

  datatype Params = Params(
    len: nat, alphabet: nat, backdatePct: nat, entities: nat, queries: nat, retrospectivePct: nat, tiePct: nat)

  const FIRST: int := 1000
  const STEP: int := 100

  /** What the generator asks of its parameters: something to draw from, and a clock that fits. */
  predicate Drawable(p: Params) {
    && (p.len > 0 || p.queries > 0 ==> p.entities > 0)
    && (p.len > 1 && p.tiePct > 0 ==> p.alphabet > 0)
    && (p.queries > 0 && p.retrospectivePct > 0 ==> p.len > 0)
    && FIRST + p.len * STEP <= MAX_TIME
  }

  function Instant(i: nat, p: Params): Timestamp
    requires Drawable(p) && i <= p.len
  {
    FIRST + i * STEP
  }

  function Digits(n: nat): string {
    if n < 10 then [('0' as int + n) as char] else Digits(n / 10) + [('0' as int + n % 10) as char]
  }

  /** A write's shape: an entity in range, a value of the alphabet, and never heard before it began to hold. */
  ghost predicate WriteFits(p: Params, x: WriteEvent) {
    && x.entity < p.entities && FIRST <= x.validFrom <= x.observedAt < FIRST + p.len * STEP
    && (x.value.Some? ==> exists n: nat :: n < p.alphabet && x.value == Some("value " + Digits(n)))
  }

  /** Each write is heard at its own instant of the clock, or ties with the one before it on both clocks. */
  ghost predicate Arrives(p: Params, writes: seq<WriteEvent>, i: nat)
    requires i < |writes|
  {
    || (writes[i].observedAt == FIRST + i * STEP
        && (writes[i].validFrom == writes[i].observedAt
            || exists j: nat :: j < i && writes[i].validFrom == FIRST + j * STEP))
    || (i > 0 && p.tiePct > 0 && writes[i].entity == writes[i - 1].entity && writes[i].value.Some?
        && Clocks(writes[i]) == Clocks(writes[i - 1]))
  }

  /** Heard strictly in order, each at the moment it began: no ties and no backdating. */
  ghost predicate InOrderOfArrival(writes: seq<WriteEvent>) {
    && (forall i, j :: 0 <= i < j < |writes| ==> writes[i].observedAt < writes[j].observedAt)
    && (forall x :: x in writes ==> x.validFrom == x.observedAt)
  }

  /** Asked from after everything, on both axes. */
  ghost predicate PresentTense(writes: seq<WriteEvent>, q: Question) {
    forall x :: x in writes ==> x.validFrom <= q.validT && x.observedAt <= q.txT
  }

  /** Some writes built so far, and the clock they have reached. */
  ghost predicate Built(p: Params, writes: seq<WriteEvent>, i: nat) {
    && |writes| == i
    && (forall x :: x in writes ==> WriteFits(p, x) && x.observedAt < FIRST + i * STEP)
    && (forall j :: 0 <= j < i ==> Arrives(p, writes, j))
    && (p.tiePct == 0 ==> forall a, b :: 0 <= a < b < i ==> writes[a].observedAt < writes[b].observedAt)
    && (p.backdatePct == 0 ==> forall x :: x in writes ==> x.validFrom == x.observedAt)
    && (p.tiePct >= 100 ==> forall j, k {:trigger writes[j], writes[k]} :: 0 <= j && k == j + 1 && k < i ==>
          TiesWith(writes[k], writes[j]))
    && (p.tiePct == 0 && p.backdatePct >= 100 ==> forall j :: 0 < j < i ==> writes[j].validFrom < writes[j].observedAt)
  }

  /** Another value about the same entity on both the same clocks. */
  predicate TiesWith(x: WriteEvent, previous: WriteEvent) {
    x.entity == previous.entity && Clocks(x) == Clocks(previous) && x.value.Some?
  }

  /** Heard at the `i`th instant, having begun then or at an earlier one. */
  ghost predicate Timed(p: Params, x: WriteEvent, i: nat) {
    && WriteFits(p, x) && x.observedAt == FIRST + i * STEP
    && (x.validFrom == x.observedAt || exists j: nat :: j < i && x.validFrom == FIRST + j * STEP)
    && (p.backdatePct == 0 ==> x.validFrom == x.observedAt)
    && (p.backdatePct >= 100 && i > 0 ==> x.validFrom < x.observedAt)
  }

  lemma ArrivesStill(p: Params, writes: seq<WriteEvent>, x: WriteEvent, j: nat)
    requires j < |writes| && Arrives(p, writes, j)
    ensures Arrives(p, writes + [x], j)
  {
  }

  lemma BuiltOneMore(p: Params, writes: seq<WriteEvent>, i: nat, x: WriteEvent)
    requires Built(p, writes, i) && Timed(p, x, i) && (p.tiePct < 100 || i == 0)
    ensures Built(p, writes + [x], i + 1)
  {
    hide WriteFits;
    forall j | 0 <= j < i ensures Arrives(p, writes + [x], j) { ArrivesStill(p, writes, x, j); }
    assert Arrives(p, writes + [x], i);
    hide Arrives;
    forall a | 0 <= a < i ensures writes[a].observedAt < x.observedAt { assert writes[a] in writes; }
  }

  lemma TiedOneMore(p: Params, writes: seq<WriteEvent>, i: nat, value: string)
    requires Built(p, writes, i) && i > 0 && p.tiePct > 0
    requires exists n: nat :: n < p.alphabet && value == "value " + Digits(n)
    ensures Built(p, writes + [writes[i - 1].(value := Some(value))], i + 1)
  {
    var previous, x := writes[i - 1], writes[i - 1].(value := Some(value));
    assert previous in writes;
    assert WriteFits(p, x);
    hide WriteFits, Digits;
    forall j | 0 <= j < i ensures Arrives(p, writes + [x], j) { ArrivesStill(p, writes, x, j); }
    assert Arrives(p, writes + [x], i);
  }

  /** A write of its own instant, drawn value then entity. */
  method FreshWrite(draw: nat -> nat, from: nat, p: Params, i: nat) returns (x: WriteEvent, k: nat)
    requires Drawable(p) && i < p.len
    ensures Timed(p, x, i)
  {
    k := from;
    var observedAt := Instant(i, p);
    // A backdated write takes its beginning from an earlier instant of the clock.
    var validFrom := observedAt;
    var backdated := draw(k) % 100 < p.backdatePct && i > 0;
    k := k + 1;
    if backdated {
      validFrom := Instant(draw(k) % i, p);
      k := k + 1;
    }
    var n := draw(k) % (p.alphabet + 1);
    var value := if n == p.alphabet then None else Some("value " + Digits(n));
    var entity := draw(k + 1) % p.entities;
    k := k + 2;
    x := WriteEvent(entity, value, validFrom, observedAt);
  }

  /** Build the writes; `draw` is the stream of random words, consumed in order. */
  method Writes(draw: nat -> nat, p: Params) returns (writes: seq<WriteEvent>, k: nat)
    requires Drawable(p)
    ensures |writes| == p.len && forall x :: x in writes ==> WriteFits(p, x)
    ensures forall i :: 0 <= i < |writes| ==> Arrives(p, writes, i)
    ensures p.tiePct == 0 && p.backdatePct == 0 ==> InOrderOfArrival(writes)
    ensures p.tiePct == 0 ==> forall i, j :: 0 <= i < j < |writes| ==> Clocks(writes[i]) != Clocks(writes[j])
    ensures p.tiePct >= 100 ==> forall j, k {:trigger writes[j], writes[k]} :: 0 <= j && k == j + 1 && k < |writes| ==>
      TiesWith(writes[k], writes[j])
    ensures p.tiePct == 0 && p.backdatePct >= 100 ==>
      forall i :: 0 < i < |writes| ==> writes[i].validFrom < writes[i].observedAt
  {
    hide WriteFits, Arrives, Timed, Digits;
    writes, k := [], 0;
    for i := 0 to p.len
      invariant Built(p, writes, i)
    {
      var tie := false;
      if i > 0 {
        tie := draw(k) % 100 < p.tiePct;
        k := k + 1;
      }
      if tie {
        // Differs from the write before it in nothing but, possibly, its value.
        var n := draw(k) % p.alphabet;
        k := k + 1;
        TiedOneMore(p, writes, i, "value " + Digits(n));
        writes := writes + [writes[i - 1].(value := Some("value " + Digits(n)))];
        continue;
      }
      var x;
      x, k := FreshWrite(draw, k, p, i);
      BuiltOneMore(p, writes, i, x);
      writes := writes + [x];
    }
  }

  /** Asked from an instant of the history on each clock, and so from before its end. */
  ghost predicate Retrospective(p: Params, q: Question) {
    && (exists i: nat :: i < p.len && q.validT == FIRST + i * STEP)
    && (exists j: nat :: j < p.len && q.txT == FIRST + j * STEP)
  }

  method Generate(draw: nat -> nat, p: Params) returns (w: Workload)
    requires Drawable(p)
    ensures |w.writes| == p.len && forall x :: x in w.writes ==> WriteFits(p, x)
    ensures forall i :: 0 <= i < |w.writes| ==> Arrives(p, w.writes, i)
    ensures |w.queries| == p.queries && forall q :: q in w.queries ==> q.entity < p.entities
    ensures p.tiePct == 0 && p.backdatePct == 0 ==> InOrderOfArrival(w.writes)
    ensures p.tiePct == 0 ==> forall i, j :: 0 <= i < j < |w.writes| ==> Clocks(w.writes[i]) != Clocks(w.writes[j])
    ensures p.tiePct >= 100 ==>
      forall j, k {:trigger w.writes[j], w.writes[k]} :: 0 <= j && k == j + 1 && k < |w.writes| ==>
        TiesWith(w.writes[k], w.writes[j])
    ensures p.tiePct == 0 && p.backdatePct >= 100 ==>
      forall i :: 0 < i < |w.writes| ==> w.writes[i].validFrom < w.writes[i].observedAt
    ensures p.retrospectivePct == 0 ==> forall q :: q in w.queries ==> PresentTense(w.writes, q)
    ensures p.retrospectivePct >= 100 ==> forall q :: q in w.queries ==> Retrospective(p, q)
  {
    var writes, k := Writes(draw, p);
    var last := Instant(p.len, p);
    var queries: seq<Question> := [];
    for i := 0 to p.queries
      invariant |queries| == i && forall q :: q in queries ==> q.entity < p.entities
      invariant p.retrospectivePct == 0 ==> forall q :: q in queries ==> PresentTense(writes, q)
      invariant p.retrospectivePct >= 100 ==> forall q :: q in queries ==> Retrospective(p, q)
    {
      var entity := draw(k) % p.entities;
      var retrospective := draw(k + 1) % 100 < p.retrospectivePct;
      k := k + 2;
      if retrospective {
        var validT := Instant(draw(k) % p.len, p);
        var txT := Instant(draw(k + 1) % p.len, p);
        k := k + 2;
        queries := queries + [Question(entity, validT, txT)];
      } else {
        assert PresentTense(writes, Question(entity, last, last));
        queries := queries + [Question(entity, last, last)];
      }
    }
    return Workload(writes, queries);
  }
}
