/**
 Both stores asked the same questions and marked the same way: what each scores, derived from the
 oracle alone.
 */
module Score {
  import opened Core
  import opened Ordering
  import opened Survivorship
  import opened Store
  import opened Resolution
  import opened EngineState
  import opened EngineInvariant
  import opened EngineLaws
  import opened Engine
  import opened Read
  import opened Workload

  const ATTRIBUTE: string := "employer"

  // ----- marking

  datatype Mark = Right | Wrong | Declined | Ungradeable

  datatype Score = Score(right: nat, wrong: nat, declined: nat, ungradeable: nat)

  /** Mark one answer: no answer to an ambiguous question can be right or wrong. */
  function MarkAnswer(answer: Option<Option<string>>, truth: Truth): Mark {
    if truth.Ambiguous? then Ungradeable
    else if answer.Some? && truth == TruthValue(answer.value) then Right
    else if answer.None? && truth.Nothing? then Right
    else Wrong
  }

  function MarkRead(read: Result<Believed, Refused>, truth: Truth): Mark {
    match read
    case Err(_) => if truth.Ambiguous? then Ungradeable else Declined
    case Ok(Unknown) => MarkAnswer(None, truth)
    case Ok(BelievesAbsent) => MarkAnswer(Some(None), truth)
    case Ok(Believes(text)) => MarkAnswer(Some(Some(text)), truth)
  }

  /** How often each mark was given. */
  function Counted(marks: seq<Mark>): Score {
    var given := multiset(marks);
    Score(given[Right], given[Wrong], given[Declined], given[Ungradeable])
  }

  method Tally(marks: seq<Mark>) returns (score: Score)
    ensures score == Counted(marks)
    ensures score.right + score.wrong + score.declined + score.ungradeable == |marks|
  {
    score := Score(0, 0, 0, 0);
    for i := 0 to |marks|
      invariant score == Counted(marks[..i])
      invariant score.right + score.wrong + score.declined + score.ungradeable == i
    {
      assert marks[..i + 1] == marks[..i] + [marks[i]];
      match marks[i] {
        case Right => score := score.(right := score.right + 1);
        case Wrong => score := score.(wrong := score.wrong + 1);
        case Declined => score := score.(declined := score.declined + 1);
        case Ungradeable => score := score.(ungradeable := score.ungradeable + 1);
      }
    }
    assert marks[..|marks|] == marks;
  }

  // ----- loading the store

  function Widest(writes: seq<WriteEvent>): (n: nat)
    ensures n > 0 && forall x :: x in writes ==> x.entity < n
  {
    if writes == [] then 1
    else
      var front, last := writes[..|writes| - 1], writes[|writes| - 1];
      assert writes == front + [last];
      var n := Widest(front);
      if last.entity < n then n else last.entity + 1
  }

  function LoadVector(): Vector {
    [Finite(1.0), Finite(0.0), Finite(0.0)]
  }

  function ObservationOf(x: WriteEvent): Observation {
    Observation("thing", map["name" := "subject " + Digits(x.entity)], ATTRIBUTE, x.value, Since(x.validFrom),
                Provenance(UserAssertion, x.observedAt, "contrast"), Unstated, None, LoadVector())
  }

  predicate WrittenAbout(writes: seq<WriteEvent>, entity: nat) {
    exists x :: x in writes && x.entity == entity
  }

  /** The store after some writes: each written entity pinned to an id of its own holding exactly its log. */
  ghost predicate Loaded(s: State, ids: seq<Option<StableId>>, writes: seq<WriteEvent>) {
    && s.index.dim == 3 && s.index.metric == Cosine
    && (forall e :: 0 <= e < |ids| ==> (ids[e].Some? <==> WrittenAbout(writes, e)))
    && (forall e :: 0 <= e < |ids| && ids[e].Some? ==>
          ids[e].value in s.identity && ids[e].value < s.store.nextId
          && s.store.History(ids[e].value, ATTRIBUTE) == StoredLog(writes, e))
    && (forall d, e :: 0 <= d < |ids| && 0 <= e < |ids| && ids[d].Some? && ids[d] == ids[e] ==> d == e)
    && (if writes == [] then s.store.nextId == 0 && s.store.entities == map[]
        else writes[0].entity < |ids| && ids[writes[0].entity] == Some(0))
  }

  lemma NothingLoaded(s: State, ids: seq<Option<StableId>>, writes: seq<WriteEvent>)
    requires s == New(VectorIndex(3, Cosine, map[])) && forall e :: 0 <= e < |ids| ==> ids[e].None?
    ensures Loaded(s, ids, writes[..0])
  {
  }

  lemma VectorFits(s: State, ids: seq<Option<StableId>>, writes: seq<WriteEvent>, x: WriteEvent)
    requires Loaded(s, ids, writes) && x.entity < |ids|
    ensures s.index.dim == 3 && s.index.metric == Cosine
    ensures s.index.Check(ObservationOf(x).embedding).None? && ObservationOf(x).attribute == ATTRIBUTE
    ensures ids[x.entity].Some? ==> ids[x.entity].value in s.identity
  {
    assert LoadVector()[0] == Finite(1.0);
    assert Finite(1.0) in LoadVector();
  }

  ghost predicate LogGrew(s: State, s': State, id: StableId, obs: Observation) {
    forall e, a :: s'.store.History(e, a) ==
      s.store.History(e, a) + (if e == id && a == obs.attribute then [Written(obs.AsVersion())] else [])
  }

  /** A pinned write lands: the one log grows by the one version. */
  lemma PinnedLands(rs: Ruleset, s: State, entity: Option<StableId>, obs: Observation)
    requires Sound(rs, s) && s.index.Check(obs.embedding).None?
    requires entity.Some? ==> entity.value in s.identity
    ensures var r := RememberAs(rs, s, entity, obs);
      && r.result.Ok?
      && r.state.index.dim == s.index.dim && r.state.index.metric == s.index.metric
      && s.identity.Keys <= r.state.identity.Keys
      && r.result.value.entity in r.state.identity
      && LogGrew(s, r.state, r.result.value.entity, obs)
    ensures var id, next := RememberAs(rs, s, entity, obs).result.value.entity,
      RememberAs(rs, s, entity, obs).state.store.nextId;
      && (entity.Some? ==> id == entity.value && next == s.store.nextId)
      && (entity.None? ==>
        id == s.store.nextId && next == s.store.nextId + 1 && s.store.History(id, obs.attribute) == [])
  {
    hide Sound, EngineState.Write, FoldIdentity, EngineState.CreateEntity, VectorIndex.Check, MemoryStore.History;
    if entity.Some? {
      FoldKeeps(rs, s, entity.value, obs.mention);
      var placed := FoldIdentity(rs, s, entity.value, obs.mention);
      PinnedWrite(rs, placed, entity.value, obs);
    } else {
      CreateKeeps(rs, s, obs);
      CreateCounts(rs, s, obs);
      NoLogYet(rs, s, obs.attribute);
      var (placed, id) := EngineState.CreateEntity(rs, s, obs);
      PinnedWrite(rs, placed, id, obs);
    }
  }

  lemma NoLogYet(rs: Ruleset, s: State, attribute: string)
    requires Sound(rs, s)
    ensures s.store.nextId !in s.store.entities && s.store.History(s.store.nextId, attribute) == []
  {
  }

  lemma PinnedWrite(rs: Ruleset, s: State, id: StableId, obs: Observation)
    requires Sound(rs, s) && id in s.identity && s.index.Check(obs.embedding).None?
    ensures var w := EngineState.Write(s, id, obs);
      && w.result.Ok? && w.state.identity == s.identity && w.state.store.nextId == s.store.nextId
      && w.state.index.dim == s.index.dim && w.state.index.metric == s.index.metric
      && LogGrew(s, w.state, id, obs)
  {
    hide VectorIndex.Check, BlocksDerived, MemoryStore.History;
    WriteKeeps(rs, s, id, obs);
    AssertAppends(s.store, id, obs.attribute, obs.AsVersion());
    WriteShape(s, id, obs);
    AssertCounts(s.store, id, obs.attribute, obs.AsVersion());
  }

  lemma AssertCounts(store: MemoryStore, id: StableId, attribute: string, v: Version)
    requires id in store.entities
    ensures store.Assert(id, attribute, v).Ok? && store.Assert(id, attribute, v).value.nextId == store.nextId
  {
  }

  lemma LoadOneMore(s: State, s': State, ids: seq<Option<StableId>>, writes: seq<WriteEvent>, i: nat, id: StableId)
    requires i < |writes| && Loaded(s, ids, writes[..i]) && writes[i].entity < |ids|
    requires s'.index.dim == 3 && s'.index.metric == Cosine
    requires s.identity.Keys <= s'.identity.Keys && id in s'.identity
    requires LogGrew(s, s', id, ObservationOf(writes[i]))
    requires var pinned := ids[writes[i].entity];
      && (pinned.Some? ==> id == pinned.value && s'.store.nextId == s.store.nextId)
      && (pinned.None? ==>
            id == s.store.nextId && s'.store.nextId == s.store.nextId + 1 && s.store.History(id, ATTRIBUTE) == [])
    ensures Loaded(s', ids[writes[i].entity := Some(id)], writes[..i + 1])
  {
    hide MemoryStore.History;
    var so, x := writes[..i], writes[i];
    assert writes[..i + 1] == so + [x];
    var ids' := ids[x.entity := Some(id)];
    forall e | 0 <= e < |ids'| ensures ids'[e].Some? <==> WrittenAbout(so + [x], e) {
      HeardOneMore(so, x, e);
    }
    forall e | 0 <= e < |ids'| && ids'[e].Some?
      ensures ids'[e].value in s'.identity && ids'[e].value < s'.store.nextId
      ensures s'.store.History(ids'[e].value, ATTRIBUTE) == StoredLog(so + [x], e)
    {
      StoredOneMore(so, x, e);
      if e == x.entity && ids[e].None? {
        NeverStored(so, e);
      }
    }
  }

  lemma HeardOneMore(writes: seq<WriteEvent>, x: WriteEvent, e: nat)
    ensures WrittenAbout(writes + [x], e) <==> WrittenAbout(writes, e) || x.entity == e
  {
    if WrittenAbout(writes, e) {
      var y :| y in writes && y.entity == e;
      assert y in writes + [x];
    }
    assert x in writes + [x];
  }

  lemma StoredOneMore(writes: seq<WriteEvent>, x: WriteEvent, e: nat)
    ensures StoredLog(writes + [x], e) ==
      StoredLog(writes, e) + (if x.entity == e then [Written(VersionOf(x))] else [])
    ensures Written(ObservationOf(x).AsVersion()) == Written(VersionOf(x))
  {
    assert (writes + [x])[..|writes|] == writes;
  }

  lemma NeverStored(writes: seq<WriteEvent>, e: nat)
    requires !WrittenAbout(writes, e)
    ensures StoredLog(writes, e) == []
  {
    if StoredLog(writes, e) != [] {
      StoredMembers(writes, e, StoredLog(writes, e)[0]);
    }
  }

  /** Whose log a question about this entity reads: an entity never written defaults to the first id. */
  function Asked(writes: seq<WriteEvent>, entity: nat): nat {
    if writes == [] || WrittenAbout(writes, entity) then entity else writes[0].entity
  }

  /** Replays the writes; every written entity gets an id holding exactly its log. */
  method Load(writes: seq<WriteEvent>, ruleset: Ruleset) returns (engine: Engine, ids: seq<StableId>)
    ensures fresh(engine) && engine.Valid()
    ensures |ids| == Widest(writes)
    ensures forall e :: 0 <= e < |ids| ==>
      engine.store.History(ids[e], ATTRIBUTE) == StoredLog(writes, Asked(writes, e))
  {
    hide Sound, EngineState.RememberAs, StoredLog, VectorIndex.Check, Loaded, WrittenAbout, ObservationOf, Widest,
         Asked;
    engine := new Engine(VectorIndex(3, Cosine, map[]), ruleset);
    var pinned: seq<Option<StableId>> := seq(Widest(writes), i => None);
    NothingLoaded(engine.View(), pinned, writes);
    for i := 0 to |writes|
      invariant fresh(engine) && engine.Valid() && |pinned| == Widest(writes)
      invariant Loaded(engine.View(), pinned, writes[..i])
    {
      ghost var s := engine.View();
      var x := writes[i];
      assert x in writes;
      VectorFits(s, pinned, writes[..i], x);
      PinnedLands(engine.ruleset, s, pinned[x.entity], ObservationOf(x));
      var landed := engine.RememberAs(pinned[x.entity], ObservationOf(x));
      LoadOneMore(s, engine.View(), pinned, writes, i, landed.value.entity);
      pinned := pinned[x.entity := Some(landed.value.entity)];
    }
    assert writes[..|writes|] == writes;
    ids := seq(|pinned|, i requires 0 <= i < |pinned| => if pinned[i].Some? then pinned[i].value else 0);
    forall e | 0 <= e < |ids|
      ensures engine.store.History(ids[e], ATTRIBUTE) == StoredLog(writes, Asked(writes, e))
    {
      ReadsAsked(engine.View(), pinned, writes, e);
    }
  }

  lemma ReadsAsked(s: State, pinned: seq<Option<StableId>>, writes: seq<WriteEvent>, e: nat)
    requires Loaded(s, pinned, writes) && e < |pinned|
    ensures var id := if pinned[e].Some? then pinned[e].value else 0;
      s.store.History(id, ATTRIBUTE) == StoredLog(writes, Asked(writes, e))
  {
  }

  // ----- scoring the store

  /** What the store is marked, from the oracle alone. */
  function StoreMark(writes: seq<WriteEvent>, q: Question): Mark {
    var truth := TruthOf(writes, q);
    var seen := TruthOf(writes, q.(entity := Asked(writes, q.entity)));
    if truth.Ambiguous? then Ungradeable
    else if seen.Ambiguous? then Declined
    else if seen == truth then Right
    else Wrong
  }

  function StoreMarks(w: Workload): (marks: seq<Mark>)
    ensures |marks| == |w.queries|
  {
    seq(|w.queries|, i requires 0 <= i < |w.queries| => StoreMark(w.writes, w.queries[i]))
  }

  lemma MarkReadIsStoreMark(writes: seq<WriteEvent>, q: Question)
    ensures MarkRead(AboutLog(ValidInterval, StoredLog(writes, Asked(writes, q.entity)), q.validT, q.txT, None),
                     TruthOf(writes, q)) == StoreMark(writes, q)
  {
    hide AboutLog, TruthOf;
    StoreAnswersTruth(writes, q.(entity := Asked(writes, q.entity)));
  }

  /** Marks each read against the oracle. Every question must be about an entity the id list covers. */
  method ScoreStore(w: Workload, ruleset: Ruleset) returns (score: Score)
    requires forall q :: q in w.queries ==> q.entity < Widest(w.writes)
    ensures score == Counted(StoreMarks(w))
  {
    hide AboutLog, TruthOf, MarkRead, StoreMark, Counted;
    var engine, ids := Load(w.writes, ruleset);
    var store := engine.store;
    var marks: seq<Mark> := [];
    for i := 0 to |w.queries|
      invariant |marks| == i && forall j :: 0 <= j < i ==> marks[j] == StoreMarks(w)[j]
    {
      var q := w.queries[i];
      assert q in w.queries;
      var read := AboutUnder(store, Policy(ValidInterval, map[]), ids[q.entity], ATTRIBUTE, q.validT, q.txT, None);
      assert read == AboutLog(ValidInterval, StoredLog(w.writes, Asked(w.writes, q.entity)), q.validT, q.txT, None);
      MarkReadIsStoreMark(w.writes, q);
      marks := marks + [MarkRead(read, TruthOf(w.writes, q))];
    }
    assert marks == StoreMarks(w);
    score := Tally(marks);
  }

  lemma UnwrittenIsNothing(writes: seq<WriteEvent>, q: Question)
    requires !WrittenAbout(writes, q.entity)
    ensures TruthOf(writes, q).Nothing?
  {
    hide Visible;
    VisibleAreSeen(writes, q);
    NothingIn(Visible(writes, q));
  }

  /** Whether the store gets a question right: it was about something written, or the default answers nothing too. */
  predicate Answerable(writes: seq<WriteEvent>, q: Question) {
    writes == [] || WrittenAbout(writes, q.entity) || TruthOf(writes, q.(entity := writes[0].entity)).Nothing?
  }

  lemma StoreMarksExactly(writes: seq<WriteEvent>, q: Question)
    ensures Answerable(writes, q) <==> StoreMark(writes, q) == Right || StoreMark(writes, q) == Ungradeable
    ensures StoreMark(writes, q) == Ungradeable <==> TruthOf(writes, q).Ambiguous?
    ensures StoreMark(writes, q) == Declined <==>
      && !TruthOf(writes, q).Ambiguous?
      && AboutLog(ValidInterval, StoredLog(writes, Asked(writes, q.entity)), q.validT, q.txT, None).Err?
  {
    StoreAnswersTruth(writes, q.(entity := Asked(writes, q.entity)));
    hide TruthOf, AboutLog;
    if !WrittenAbout(writes, q.entity) {
      UnwrittenIsNothing(writes, q);
    }
  }

  lemma {:induction false} NoneMarked(marks: seq<Mark>, m: Mark)
    ensures multiset(marks)[m] == 0 <==> forall i :: 0 <= i < |marks| ==> marks[i] != m
  {
    if multiset(marks)[m] > 0 {
      assert m in multiset(marks);
      assert m in marks;
    } else {
      forall i | 0 <= i < |marks| ensures marks[i] != m {
        assert marks[i] in multiset(marks);
      }
    }
  }

  /**
   The store scores nothing wrong and nothing declined exactly when every question is about an
   entity that was written, or one whose stand-in also has nothing to say.
   */
  lemma StoreIsPerfectExactly(w: Workload)
    ensures var score := Counted(StoreMarks(w));
      score.wrong == 0 && score.declined == 0 <==> forall q :: q in w.queries ==> Answerable(w.writes, q)
  {
    hide StoreMark, Answerable;
    var marks := StoreMarks(w);
    NoneMarked(marks, Wrong);
    NoneMarked(marks, Declined);
    forall i | 0 <= i < |marks|
      ensures Answerable(w.writes, w.queries[i]) <==> marks[i] != Wrong && marks[i] != Declined
    {
      StoreMarksExactly(w.writes, w.queries[i]);
    }
    forall q | q in w.queries ensures exists i :: 0 <= i < |w.queries| && w.queries[i] == q {}
  }

  /** The input that is marked wrong: entities 0 and 2 are written, entity 1 is asked about. */
  lemma StandInIsWrong(value: Option<string>, other: Option<string>, t: Timestamp)
    ensures var writes := [WriteEvent(0, value, t, t), WriteEvent(2, other, t, t)];
      && 1 < Widest(writes)
      && TruthOf(writes, Question(1, t, t)).Nothing?
      && StoreMark(writes, Question(1, t, t)) == Wrong
  {
    hide TruthOf, Visible;
    var first, last := WriteEvent(0, value, t, t), WriteEvent(2, other, t, t);
    var writes, q := [first, last], Question(1, t, t);
    UnwrittenIsNothing(writes, q);
    assert last in writes;
    FirstIsSeen(writes, q);
    OneWriteIsGradeable(writes, q.(entity := 0), first);
  }

  lemma OneWriteIsGradeable(writes: seq<WriteEvent>, q: Question, only: WriteEvent)
    requires forall x :: x in writes && x.entity == q.entity ==> x == only
    ensures !TruthOf(writes, q).Ambiguous?
  {
    hide Visible;
    VisibleAreSeen(writes, q);
    var visible := Visible(writes, q);
    assert visible != [] ==> visible[|visible| - 1] in visible;
  }

  /** Asked from late enough, the stand-in of a history with anything in it has something to say. */
  lemma FirstIsSeen(writes: seq<WriteEvent>, q: Question)
    requires writes != [] && writes[0].observedAt <= q.txT && writes[0].validFrom <= q.validT
    ensures !TruthOf(writes, q.(entity := writes[0].entity)).Nothing?
  {
    hide Visible;
    var asked := q.(entity := writes[0].entity);
    VisibleAreSeen(writes, asked);
    assert writes[0] in writes && Seen(asked, writes[0]);
    assert writes[0] in Visible(writes, asked);
  }

  predicate ClocksApart(writes: seq<WriteEvent>) {
    forall i, j :: 0 <= i < j < |writes| ==> Clocks(writes[i]) != Clocks(writes[j])
  }

  lemma ApartIsGradeable(writes: seq<WriteEvent>, q: Question)
    requires ClocksApart(writes)
    ensures !TruthOf(writes, q).Ambiguous?
  {
    hide Visible, Clocks;
    forall x, y | x in writes && y in writes && Clocks(x) == Clocks(y) ensures x == y {
      var i :| 0 <= i < |writes| && writes[i] == x;
      var j :| 0 <= j < |writes| && writes[j] == y;
    }
    VisibleAreSeen(writes, q);
    var visible := Visible(writes, q);
    assert visible != [] ==> visible[|visible| - 1] in visible;
  }

  /** Where no two writes share both clocks, every question is right if and only if every one is answerable. */
  lemma StoreScoresPerfectly(w: Workload)
    requires ClocksApart(w.writes)
    ensures Counted(StoreMarks(w)) == Score(|w.queries|, 0, 0, 0) <==>
      forall q :: q in w.queries ==> Answerable(w.writes, q)
  {
    hide StoreMark, Answerable, ClocksApart;
    var marks := StoreMarks(w);
    StoreIsPerfectExactly(w);
    if forall q :: q in w.queries ==> Answerable(w.writes, q) {
      forall i | 0 <= i < |marks| ensures marks[i] == Right {
        ApartIsGradeable(w.writes, w.queries[i]);
        StoreMarksExactly(w.writes, w.queries[i]);
      }
      NoneMarked(marks, Wrong);
      NoneMarked(marks, Declined);
      NoneMarked(marks, Ungradeable);
      AllRight(marks);
    }
  }

  /** Asked from after everything, only something written is answerable. */
  lemma PresentAnswerable(writes: seq<WriteEvent>, q: Question)
    requires PresentTense(writes, q)
    ensures Answerable(writes, q) <==> writes == [] || WrittenAbout(writes, q.entity)
  {
    hide TruthOf;
    if writes != [] {
      assert writes[0] in writes;
      FirstIsSeen(writes, q);
    }
  }

  // ----- the control

  /** A map with neither clock: each arrival replaces what its key held. */
  class Flat {
    var latest: map<(StableId, string), Option<string>>

    constructor ()
      ensures forall e: StableId, a :: About(e, a).None?
    {
      latest := map[];
    }

    method Remember(entity: StableId, attribute: string, value: Option<string>)
      modifies this
      ensures About(entity, attribute) == Some(value)
      ensures forall e: StableId, a :: (e, a) != (entity, attribute) ==> About(e, a) == old(About(e, a))
    {
      latest := latest[(entity, attribute) := value];
    }

    /** Whether the key was ever written, and what with. */
    function About(entity: StableId, attribute: string): Option<Option<string>>
      reads this
    {
      if (entity, attribute) in latest then Some(latest[(entity, attribute)]) else None
    }
  }

  /** The last value to arrive for an entity. */
  function LastWritten(writes: seq<WriteEvent>, entity: nat): Option<Option<string>> {
    if writes == [] then None
    else
      var last := writes[|writes| - 1];
      if last.entity == entity then Some(last.value) else LastWritten(writes[..|writes| - 1], entity)
  }

  function FlatMark(writes: seq<WriteEvent>, q: Question): Mark {
    MarkAnswer(LastWritten(writes, q.entity), TruthOf(writes, q))
  }

  function FlatMarks(w: Workload): (marks: seq<Mark>)
    ensures |marks| == |w.queries|
  {
    seq(|w.queries|, i requires 0 <= i < |w.queries| => FlatMark(w.writes, w.queries[i]))
  }

  /** Marks the control's latest value against the oracle, whatever instants are asked about. */
  method ScoreFlat(w: Workload) returns (score: Score)
    ensures score == Counted(FlatMarks(w))
  {
    hide TruthOf, Counted;
    var flat := new Flat();
    for i := 0 to |w.writes|
      invariant fresh(flat)
      invariant forall e :: flat.About(e, ATTRIBUTE) == LastWritten(w.writes[..i], e)
    {
      assert w.writes[..i + 1][..i] == w.writes[..i];
      flat.Remember(w.writes[i].entity, ATTRIBUTE, w.writes[i].value);
    }
    assert w.writes[..|w.writes|] == w.writes;
    var marks: seq<Mark> := [];
    for i := 0 to |w.queries|
      invariant marks == FlatMarks(w)[..i]
    {
      var q := w.queries[i];
      marks := marks + [MarkAnswer(flat.About(q.entity, ATTRIBUTE), TruthOf(w.writes, q))];
    }
    assert marks == FlatMarks(w);
    score := Tally(marks);
  }

  /** Both stores are excused exactly the same questions, as many times. */
  lemma {:induction false} UngradeableAgree(w: Workload, n: nat)
    requires n <= |w.queries|
    ensures multiset(StoreMarks(w)[..n])[Ungradeable] == multiset(FlatMarks(w)[..n])[Ungradeable]
    ensures n == |w.queries| ==> Counted(StoreMarks(w)).ungradeable == Counted(FlatMarks(w)).ungradeable
  {
    hide StoreMark, FlatMark, TruthOf, Counted;
    if n > 0 {
      UngradeableAgree(w, n - 1);
      StoreMarksExactly(w.writes, w.queries[n - 1]);
      FlatUngradeable(w.writes, w.queries[n - 1]);
      OneMoreMark(StoreMarks(w), n, Ungradeable);
      OneMoreMark(FlatMarks(w), n, Ungradeable);
    }
    if n == |w.queries| {
      assert StoreMarks(w)[..n] == StoreMarks(w) && FlatMarks(w)[..n] == FlatMarks(w);
      CountedUngradeable(StoreMarks(w));
      CountedUngradeable(FlatMarks(w));
    }
  }

  lemma FlatUngradeable(writes: seq<WriteEvent>, q: Question)
    ensures FlatMark(writes, q) == Ungradeable <==> TruthOf(writes, q).Ambiguous?
  {
    hide TruthOf;
  }

  lemma OneMoreMark(marks: seq<Mark>, n: nat, m: Mark)
    requires 0 < n <= |marks|
    ensures multiset(marks[..n])[m] == multiset(marks[..n - 1])[m] + (if marks[n - 1] == m then 1 else 0)
  {
    assert marks[..n] == marks[..n - 1] + [marks[n - 1]];
  }

  lemma CountedUngradeable(marks: seq<Mark>)
    ensures Counted(marks).ungradeable == multiset(marks)[Ungradeable]
  {
  }

  lemma {:induction false} LastWrittenIs(writes: seq<WriteEvent>, entity: nat)
    ensures LastWritten(writes, entity).None? <==> !WrittenAbout(writes, entity)
    ensures LastWritten(writes, entity).Some? ==>
      exists i :: 0 <= i < |writes| && writes[i].entity == entity &&
        LastWritten(writes, entity) == Some(writes[i].value)
        && forall j :: i < j < |writes| ==> writes[j].entity != entity
  {
    if writes != [] {
      var front, last := writes[..|writes| - 1], writes[|writes| - 1];
      assert writes == front + [last];
      LastWrittenIs(front, entity);
      HeardOneMore(front, last, entity);
      if last.entity != entity && LastWritten(front, entity).Some? {
        var i :| 0 <= i < |front| && front[i].entity == entity && LastWritten(front, entity) == Some(front[i].value)
          && forall j :: i < j < |front| ==> front[j].entity != entity;
        assert writes[i] == front[i];
      }
    }
  }

  predicate LastAbout(writes: seq<WriteEvent>, entity: nat, i: nat) {
    i < |writes| && writes[i].entity == entity && forall j :: i < j < |writes| ==> writes[j].entity != entity
  }

  /**
   The control is marked wrong exactly where there is an answer and the last value to arrive about the
   entity is not it; right where it is, or where nothing was ever written; and it never declines.
   */
  lemma FlatMarksExactly(writes: seq<WriteEvent>, q: Question)
    ensures var truth, mark := TruthOf(writes, q), FlatMark(writes, q);
      && (mark == Ungradeable <==> truth.Ambiguous?)
      && (mark == Wrong <==>
            !truth.Ambiguous? &&
            exists i: nat :: LastAbout(writes, q.entity, i) && truth != TruthValue(writes[i].value))
      && mark != Declined
  {
    hide TruthOf, LastWritten;
    LastWrittenIs(writes, q.entity);
    if LastWritten(writes, q.entity).None? {
      UnwrittenIsNothing(writes, q);
      forall i: nat ensures !LastAbout(writes, q.entity, i) {
        if i < |writes| { assert writes[i] in writes; }
      }
    } else {
      var i :| 0 <= i < |writes| && writes[i].entity == q.entity &&
        LastWritten(writes, q.entity) == Some(writes[i].value)
        && forall j :: i < j < |writes| ==> writes[j].entity != q.entity;
      assert LastAbout(writes, q.entity, i);
    }
  }

  /** A write that arrives last and began first: the control tells it, the store does not. */
  lemma BackdatedFoolsFlat(value: Option<string>, late: Option<string>, t: Timestamp)
    requires t + 2 <= MAX_TIME && value != late
    ensures var writes := [WriteEvent(0, value, t + 1, t + 1), WriteEvent(0, late, t, t + 2)];
      && FlatMark(writes, Question(0, t + 1, t + 2)) == Wrong
      && StoreMark(writes, Question(0, t + 1, t + 2)) == Right
  {
    hide TruthOf, FlatMark, StoreMark;
    var first, second := WriteEvent(0, value, t + 1, t + 1), WriteEvent(0, late, t, t + 2);
    var writes, q := [first, second], Question(0, t + 1, t + 2);
    assert first in writes;
    LatestIsTruth(writes, q, first);
    FlatMarksExactly(writes, q);
    StoreMarksExactly(writes, q);
    assert LastAbout(writes, 0, 1);
  }

  /** A write seen that every other seen one precedes is the answer. */
  lemma LatestIsTruth(writes: seq<WriteEvent>, q: Question, x: WriteEvent)
    requires x in writes && Seen(q, x)
    requires forall y :: y in writes && Seen(q, y) ==> y == x || Precedes(Clocks(y), Clocks(x))
    ensures TruthOf(writes, q) == TruthValue(x.value)
  {
    hide Visible, Seen;
    VisibleAreSeen(writes, q);
    var visible := Visible(writes, q);
    assert x in visible;
    WinnerIsLatest(writes, q);
    var winner := visible[|visible| - 1];
    assert winner in visible && AtMost(Clocks(x), Clocks(winner));
    assert winner == x;
  }

  /**
   The calibration: heard in order, each at the moment it began, and asked from after everything,
   latest-wins is exactly the right tool.
   */
  lemma FlatIsPerfect(writes: seq<WriteEvent>, q: Question)
    requires InOrderOfArrival(writes) && PresentTense(writes, q)
    ensures FlatMark(writes, q) == Right
  {
    hide Visible, LastWritten, InOrderOfArrival, PresentTense, Tied;
    LastWrittenIs(writes, q.entity);
    if LastWritten(writes, q.entity).None? {
      UnwrittenIsNothing(writes, q);
    } else {
      var i :| 0 <= i < |writes| && writes[i].entity == q.entity &&
        LastWritten(writes, q.entity) == Some(writes[i].value)
        && forall j :: i < j < |writes| ==> writes[j].entity != q.entity;
      LastIsTruth(writes, q, i);
    }
  }

  /** In order and in the present tense, the last to arrive is the one the oracle picks. */
  lemma LastIsTruth(writes: seq<WriteEvent>, q: Question, i: nat)
    requires InOrderOfArrival(writes) && PresentTense(writes, q)
    requires i < |writes| && writes[i].entity == q.entity
    requires forall j :: i < j < |writes| ==> writes[j].entity != q.entity
    ensures TruthOf(writes, q) == TruthValue(writes[i].value)
  {
    var x := writes[i];
    assert x in writes;
    forall y | y in writes && Seen(q, y) ensures y == x || Precedes(Clocks(y), Clocks(x)) {
      ArrivedBefore(writes, q, i, y);
    }
    LatestIsTruth(writes, q, x);
  }

  lemma ArrivedBefore(writes: seq<WriteEvent>, q: Question, i: nat, y: WriteEvent)
    requires InOrderOfArrival(writes) && i < |writes| && y in writes && y.entity == q.entity
    requires forall j :: i < j < |writes| ==> writes[j].entity != q.entity
    ensures y == writes[i] || Precedes(Clocks(y), Clocks(writes[i]))
  {
    var j :| 0 <= j < |writes| && writes[j] == y;
    assert writes[i] in writes;
  }

  lemma FlatScoresPerfectly(w: Workload)
    requires InOrderOfArrival(w.writes) && forall q :: q in w.queries ==> PresentTense(w.writes, q)
    ensures Counted(FlatMarks(w)) == Score(|w.queries|, 0, 0, 0)
  {
    hide FlatMark, InOrderOfArrival, PresentTense;
    var marks := FlatMarks(w);
    forall i | 0 <= i < |marks| ensures marks[i] == Right {
      FlatIsPerfect(w.writes, w.queries[i]);
    }
    NoneMarked(marks, Wrong);
    NoneMarked(marks, Declined);
    NoneMarked(marks, Ungradeable);
    AllRight(marks);
  }

  lemma {:induction false} AllRight(marks: seq<Mark>)
    requires forall i :: 0 <= i < |marks| ==> marks[i] == Right
    ensures multiset(marks)[Right] == |marks|
  {
    if marks != [] {
      AllRight(marks[1..]);
      assert marks == [marks[0]] + marks[1..];
    }
  }

  // ----- the contrast

  /** Whether every question has an id to read: past the widest entity written there is none. */
  predicate Indexable(w: Workload) {
    forall q :: q in w.queries ==> q.entity < Widest(w.writes)
  }

  lemma Calibrated(w: Workload)
    requires InOrderOfArrival(w.writes) && forall q :: q in w.queries ==> PresentTense(w.writes, q)
    ensures Counted(FlatMarks(w)) == Score(|w.queries|, 0, 0, 0)
    ensures Counted(StoreMarks(w)) == Score(|w.queries|, 0, 0, 0) <==>
      w.writes == [] || forall q :: q in w.queries ==> WrittenAbout(w.writes, q.entity)
  {
    FlatScoresPerfectly(w);
    assert ClocksApart(w.writes);
    hide InOrderOfArrival, PresentTense, Counted, Answerable, WrittenAbout, ClocksApart;
    StoreScoresPerfectly(w);
    forall q | q in w.queries
      ensures Answerable(w.writes, q) <==> w.writes == [] || WrittenAbout(w.writes, q.entity)
    {
      PresentAnswerable(w.writes, q);
    }
  }

  lemma WrittenIsIndexable(w: Workload)
    requires forall q :: q in w.queries ==> WrittenAbout(w.writes, q.entity)
    ensures Indexable(w)
  {
    forall q | q in w.queries ensures q.entity < Widest(w.writes) {
      var x :| x in w.writes && x.entity == q.entity;
    }
  }

  lemma NeverDeclines(w: Workload)
    ensures Counted(FlatMarks(w)).declined == 0
  {
    hide TruthOf;
    NoneMarked(FlatMarks(w), Declined);
  }

  /** Generate a workload and ask both stores; no store score where a question has no id to read. */
  method Contrast(draw: nat -> nat, p: Params, ruleset: Ruleset)
    returns (w: Workload, store: Option<Score>, flat: Score)
    requires Drawable(p)
    ensures |w.writes| == p.len && |w.queries| == p.queries
    ensures store.Some? <==> Indexable(w)
    ensures store.Some? ==> store.value.ungradeable == flat.ungradeable
    ensures flat.declined == 0
    ensures store.Some? ==>
      (store.value.wrong == 0 && store.value.declined == 0 <==> forall q :: q in w.queries ==> Answerable(w.writes, q))
    ensures p.tiePct == 0 && store.Some? ==>
      (store.value == Score(p.queries, 0, 0, 0) <==> forall q :: q in w.queries ==> Answerable(w.writes, q))
    ensures p.tiePct == 0 && p.backdatePct == 0 && p.retrospectivePct == 0 ==>
      && flat == Score(p.queries, 0, 0, 0)
      && (store == Some(Score(p.queries, 0, 0, 0)) <==>
            Indexable(w) && (w.writes == [] || forall q :: q in w.queries ==> WrittenAbout(w.writes, q.entity)))
    ensures (forall q :: q in w.queries ==> WrittenAbout(w.writes, q.entity)) ==> store.Some?
  {
    hide InOrderOfArrival, PresentTense, Counted, Answerable, WrittenAbout, WriteFits, Arrives, StoreMarks, FlatMarks;
    w := Generate(draw, p);
    flat := ScoreFlat(w);
    store := None;
    NeverDeclines(w);
    if forall q :: q in w.queries ==> WrittenAbout(w.writes, q.entity) {
      WrittenIsIndexable(w);
    }
    if p.tiePct == 0 && p.backdatePct == 0 && p.retrospectivePct == 0 {
      Calibrated(w);
    }
    if forall q :: q in w.queries ==> q.entity < Widest(w.writes) {
      var score := ScoreStore(w, ruleset);
      store := Some(score);
      StoreIsPerfectExactly(w);
      UngradeableAgree(w, |w.queries|);
      if p.tiePct == 0 {
        StoreScoresPerfectly(w);
      }
    }
  }
}
