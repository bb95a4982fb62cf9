/**
 The engine's state and, for each operation, the state it leaves behind.

 Each function here is declarative: a merge is a map comprehension, a resolution the entity no
 other candidate beats. The loops that compute them are the methods of `Engine`.
 */
module EngineState {
  import opened Core
  import opened Ordering
  import opened Store
  import opened Resolution

  type ReviewId = nat

  /** Where an assertion lives: a position in one attribute's version log. */
  datatype AssertionRef = AssertionRef(entity: StableId, attribute: string, version: nat)

  /** An open question: whether the two entities of a scored pair are one. */
  datatype PendingReview = PendingReview(id: ReviewId, a: StableId, b: StableId, score: real)

  /** A pair answered "not the same", lower id first. */
  datatype Settled = Settled(lower: StableId, higher: StableId)

  function PairOf(a: StableId, b: StableId): Settled {
    if a <= b then Settled(a, b) else Settled(b, a)
  }

  datatype Observation = Observation(
    kind: string,
    mention: Record,
    attribute: string,
    value: Option<string>,
    valid: Interval,
    provenance: Provenance,
    supersession: Supersession,
    accordingTo: Option<StableId>,
    embedding: Vector)
  {
    function AsVersion(): Version {
      Version(value, valid, provenance, supersession, accordingTo)
    }
  }

  datatype Remembered =
    | Merged(entity: StableId, assertion: AssertionId)
    | Created(entity: StableId, assertion: AssertionId)
    | CreatedPendingReview(entity: StableId, assertion: AssertionId, review: seq<ReviewId>)

  datatype EngineError =
    | IndexRefused(index: IndexError)
    | StoreRefused(store: StoreError)
    | NoSuchEntity(id: StableId)
    | NoSuchReview(review: ReviewId)
    | BadMentionIndex(mention: nat)
    | SelfRelation(mention: nat)
    | NamelessMention(mention: nat)
    | Mismatched
    | CorruptSnapshot

  /** The engine's error for a write the store refused. */
  function OnWrite(e: StoreError): EngineError {
    match e
    case UnknownEntity(id) => NoSuchEntity(id)
    case _ => StoreRefused(e)
  }

  type Blocks = map<string, seq<StableId>>

  datatype State = State(
    store: MemoryStore,
    index: VectorIndex,
    identity: map<StableId, Record>,
    blocks: Blocks,
    assertions: map<AssertionId, AssertionRef>,
    review: map<ReviewId, PendingReview>,
    rejected: set<Settled>,
    nextAssertion: AssertionId,
    nextReview: ReviewId)

  /** The state before any call. */
  function New(index: VectorIndex): State {
    State(MemoryStore(map[], 0, map[]), index, map[], map[], map[], map[], {}, 0, 0)
  }

  /** The state an operation leaves, and its answer. */
  datatype Step<+T> = Step(state: State, result: Result<T, EngineError>)

  // ----- reading

  /** The version an assertion resolves to, when its reference is good. */
  function Resolve(s: State, id: AssertionId): Option<Version> {
    if id !in s.assertions then None
    else
      var at := s.assertions[id];
      var log := s.store.History(at.entity, at.attribute);
      if at.version < |log| then Some(log[at.version]) else None
  }

  // ----- blocking

  function BlockOf(blocks: Blocks, key: string): seq<StableId> {
    if key in blocks then blocks[key] else []
  }

  function WithMember(ids: seq<StableId>, id: StableId): seq<StableId> {
    if id in ids then ids else ids + [id]
  }

  function MemberSet(keys: seq<string>): set<string> {
    set k | k in keys
  }

  /** Register one entity under every key given. */
  function Keyed(blocks: Blocks, entity: StableId, keys: seq<string>): Blocks {
    map k | k in blocks.Keys + MemberSet(keys) ::
      if k in keys then WithMember(BlockOf(blocks, k), entity) else BlockOf(blocks, k)
  }

  /** Strike an entity from every block, and drop the blocks that leaves empty. */
  function Unkeyed(blocks: Blocks, entity: StableId): Blocks {
    map k | k in blocks && Filter(Other(entity), blocks[k]) != [] :: Filter(Other(entity), blocks[k])
  }

  function Other(entity: StableId): StableId -> bool {
    (id: StableId) => id != entity
  }

  /** Entities sharing at least one key with the mention; every entity where nothing blocks. */
  function CandidateSet(rs: Ruleset, s: State, mention: Record): set<StableId> {
    if rs.blocking == [] then s.identity.Keys
    else set k, id | k in rs.KeysFor(mention) && k in s.blocks && id in s.blocks[k] :: id
  }

  // ----- identity

  function FoldIdentity(rs: Ruleset, s: State, entity: StableId, mention: Record): State {
    if entity !in s.identity then s
    else if mention.Keys <= s.identity[entity].Keys then s
    else
      var record := Folded(s.identity[entity], mention);
      s.(identity := s.identity[entity := record],
         blocks := Keyed(s.blocks, entity, rs.KeysFor(record)))
  }

  // ----- writing

  function CreateEntity(rs: Ruleset, s: State, obs: Observation): (State, StableId) {
    var (store, id) := s.store.CreateEntity(obs.kind, obs.provenance.observedAt);
    (s.(store := store,
        blocks := Keyed(s.blocks, id, rs.KeysFor(obs.mention)),
        identity := s.identity[id := obs.mention]),
     id)
  }

  /** The state a write leaves. A vector the index refuses still leaves the version appended. */
  function Write(s: State, entity: StableId, obs: Observation): Step<AssertionId> {
    match s.store.Assert(entity, obs.attribute, obs.AsVersion())
    case Err(e) => Step(s, Err(StoreRefused(e)))
    case Ok(store) =>
      var id := s.nextAssertion;
      var s' := s.(store := store, nextAssertion := id + 1);
      match s.index.Insert(id, obs.embedding)
      case Err(e) => Step(s', Err(IndexRefused(e)))
      case Ok(index) =>
        var at := AssertionRef(entity, obs.attribute, |s.store.History(entity, obs.attribute)|);
        Step(s'.(index := index, assertions := s.assertions[id := at]), Ok(id))
  }

  // ----- remembering

  function ScoreOf(rs: Ruleset, s: State, mention: Record, id: StableId): real
    requires id in s.identity
  {
    rs.score(mention, s.identity[id])
  }

  predicate Banded(rs: Ruleset, s: State, mention: Record, id: StableId, band: Decision) {
    id in CandidateSet(rs, s, mention) && id in s.identity
    && rs.Decide(ScoreOf(rs, s, mention, id)) == band
  }

  /** A match no other match outscores, the lowest id among equals. */
  ghost predicate Wins(rs: Ruleset, s: State, mention: Record, id: StableId) {
    && Banded(rs, s, mention, id, Match)
    && forall other :: Banded(rs, s, mention, other, Match) ==>
         var theirs, mine := ScoreOf(rs, s, mention, other), ScoreOf(rs, s, mention, id);
         theirs < mine || (theirs == mine && id <= other)
  }

  ghost function BestMatch(rs: Ruleset, s: State, mention: Record): Option<StableId> {
    if exists id :: Wins(rs, s, mention, id) then
      var id :| Wins(rs, s, mention, id); Some(id)
    else None
  }

  /** Whether someone told the two apart; the answer is kept per pair of records, so ids play no part. */
  predicate AnsweredNo(identity: map<StableId, Record>, rejected: set<Settled>, a: StableId, b: StableId) {
    a in identity && b in identity &&
    exists pair :: pair in rejected && pair.lower in identity && pair.higher in identity &&
      ((identity[pair.lower] == identity[a] && identity[pair.higher] == identity[b]) ||
       (identity[pair.lower] == identity[b] && identity[pair.higher] == identity[a]))
  }

  predicate AlreadyRejected(s: State, a: StableId, b: StableId) {
    AnsweredNo(s.identity, s.rejected, a, b)
  }

  /** The pairs to ask about, in ascending order: review-band candidates nobody has answered. */
  function Askable(rs: Ruleset, s: State, created: State, entity: StableId, mention: Record): seq<StableId> {
    InOrder(set id | id in CandidateSet(rs, s, mention)
                  && Banded(rs, s, mention, id, Review) && !AlreadyRejected(created, entity, id))
  }

  function Questions(rs: Ruleset, s: State, entity: StableId, mention: Record,
                     others: seq<StableId>, first: ReviewId): map<ReviewId, PendingReview>
    requires forall id :: id in others ==> id in s.identity
  {
    map q | q in Numbers(first, |others|) ::
      assert others[q - first] in others;
      var other := others[q - first];
      var pair := PairOf(entity, other);
      PendingReview(q, pair.lower, pair.higher, ScoreOf(rs, s, mention, other))
  }

  ghost function Remember(rs: Ruleset, s: State, obs: Observation): Step<Remembered> {
    match s.index.Check(obs.embedding)
    case Some(e) => Step(s, Err(IndexRefused(e)))
    case None =>
      match BestMatch(rs, s, obs.mention)
      case Some(entity) =>
        var written := Write(s, entity, obs);
        (match written.result
         case Err(e) => Step(written.state, Err(e))
         case Ok(assertion) =>
           Step(FoldIdentity(rs, written.state, entity, obs.mention), Ok(Merged(entity, assertion))))
      case None =>
        var (created, entity) := CreateEntity(rs, s, obs);
        var written := Write(created, entity, obs);
        match written.result
        case Err(e) => Step(written.state, Err(e))
        case Ok(assertion) =>
          var others := Askable(rs, s, created, entity, obs.mention);
          var asked := written.state.(
            review := s.review + Questions(rs, s, entity, obs.mention, others, s.nextReview),
            nextReview := s.nextReview + |others|);
          if others == [] then Step(asked, Ok(Created(entity, assertion)))
          else Step(asked, Ok(CreatedPendingReview(entity, assertion, Numbers(s.nextReview, |others|))))
  }

  datatype Pinned = Pinned(entity: StableId, assertion: AssertionId)

  function RememberAs(rs: Ruleset, s: State, entity: Option<StableId>, obs: Observation): Step<Pinned> {
    match s.index.Check(obs.embedding)
    case Some(e) => Step(s, Err(IndexRefused(e)))
    case None =>
      if entity.Some? && entity.value !in s.identity then Step(s, Err(NoSuchEntity(entity.value)))
      else
        var (placed, id) :=
          if entity.Some? then (FoldIdentity(rs, s, entity.value, obs.mention), entity.value)
          else CreateEntity(rs, s, obs);
        var written := Write(placed, id, obs);
        match written.result
        case Err(e) => Step(written.state, Err(e))
        case Ok(assertion) => Step(written.state, Ok(Pinned(id, assertion)))
  }

  // ----- merging

  /** The absorbed entity's logs appended to the survivor's, attribute by attribute. */
  function MergedAttributes(kept: Attributes, absorbed: Attributes): Attributes {
    map a | a in kept.Keys + absorbed.Keys && (a in kept || absorbed[a] != []) ::
      LogOf(kept, a) + WrittenAll(LogOf(absorbed, a))
  }

  function MergedStore(store: MemoryStore, kept: StableId, absorbed: StableId): MemoryStore
    requires kept in store.entities && absorbed in store.entities && kept != absorbed
  {
    var k, a := store.entities[kept], store.entities[absorbed];
    store.(
      entities := store.entities[
        kept := k.(attributes := MergedAttributes(k.attributes, a.attributes))][
        absorbed := a.(attributes := map[])],
      edges := Repointed(store.edges, absorbed, kept))
  }

  /** Ownership and position move together: by exactly the length of the survivor's own log. */
  function Adopted(at: AssertionRef, store: MemoryStore, kept: StableId, absorbed: StableId): AssertionRef {
    if at.entity != absorbed then at
    else AssertionRef(kept, at.attribute,
           at.version +
           (if absorbed in store.entities && at.attribute in store.entities[absorbed].attributes
            then |store.History(kept, at.attribute)| else 0))
  }

  function RenamedPair(p: PendingReview, kept: StableId, absorbed: StableId): Settled {
    PairOf(Renamed(p.a, absorbed, kept), Renamed(p.b, absorbed, kept))
  }

  /** An open question that still asks something, and that no earlier open question now asks. */
  predicate StillAsks(review: map<ReviewId, PendingReview>, kept: StableId, absorbed: StableId, q: ReviewId)
    requires q in review
  {
    var pair := RenamedPair(review[q], kept, absorbed);
    && pair.lower != pair.higher
    && forall earlier :: earlier in review && earlier < q ==> RenamedPair(review[earlier], kept, absorbed) != pair
  }

  function MergedReviews(review: map<ReviewId, PendingReview>, kept: StableId, absorbed: StableId)
    : map<ReviewId, PendingReview>
  {
    map q | q in review && StillAsks(review, kept, absorbed, q) ::
      var pair := RenamedPair(review[q], kept, absorbed);
      review[q].(a := pair.lower, b := pair.higher)
  }

  function MergedRejections(rejected: set<Settled>, kept: StableId, absorbed: StableId): set<Settled> {
    set p | p in rejected && Renamed(p.lower, absorbed, kept) != Renamed(p.higher, absorbed, kept) ::
      PairOf(Renamed(p.lower, absorbed, kept), Renamed(p.higher, absorbed, kept))
  }

  /** The absorbed record folded into the survivor's, and the blocks following. */
  function MergedIdentity(rs: Ruleset, s: State, kept: StableId, absorbed: StableId): State {
    if absorbed !in s.identity then s
    else
      FoldIdentity(rs,
        s.(identity := s.identity - {absorbed}, blocks := Unkeyed(s.blocks, absorbed)),
        kept, s.identity[absorbed])
  }

  /** Logs concatenated, edges repointed, assertions adopted, identities folded, questions renamed. */
  function MergedInto(rs: Ruleset, s: State, kept: StableId, absorbed: StableId): State
    requires kept in s.store.entities && absorbed in s.store.entities && kept != absorbed
  {
    var moved := s.(
      store := MergedStore(s.store, kept, absorbed),
      assertions := map id | id in s.assertions :: Adopted(s.assertions[id], s.store, kept, absorbed));
    var folded := MergedIdentity(rs, moved, kept, absorbed);
    folded.(review := MergedReviews(s.review, kept, absorbed),
            rejected := MergedRejections(s.rejected, kept, absorbed))
  }

  function Confirm(rs: Ruleset, s: State, review: ReviewId): Step<StableId> {
    if review !in s.review then Step(s, Err(NoSuchReview(review)))
    else
      var pair := PairOf(s.review[review].a, s.review[review].b);
      var kept, absorbed := pair.lower, pair.higher;
      var rest := s.(review := s.review - {review});
      if kept == absorbed then Step(rest, Ok(kept))
      else if absorbed !in s.store.entities then Step(rest, Err(NoSuchEntity(absorbed)))
      else if kept !in s.store.entities then Step(rest, Err(NoSuchEntity(kept)))
      else Step(MergedInto(rs, rest, kept, absorbed), Ok(kept))
  }

  function Reject(s: State, review: ReviewId): Step<()> {
    if review !in s.review then Step(s, Err(NoSuchReview(review)))
    else
      Step(s.(review := s.review - {review},
              rejected := s.rejected + {PairOf(s.review[review].a, s.review[review].b)}),
           Ok(()))
  }

  // ----- forgetting

  predicate InSlot(at: AssertionRef, entity: StableId, attribute: string) {
    at.entity == entity && at.attribute == attribute
  }

  function SlotIds(s: State, entity: StableId, attribute: string): set<AssertionId> {
    set id | id in s.assertions && InSlot(s.assertions[id], entity, attribute)
  }

  function DropVectors(s: State, entity: StableId, attribute: string): State {
    s.(assertions := s.assertions - SlotIds(s, entity, attribute),
       index := s.index.(rows := s.index.rows - SlotIds(s, entity, attribute)))
  }

  function Tombstone(at: Timestamp, prov: Provenance): Version {
    Version(None, Since(at), prov, Corrects, None)
  }

  function Forget(s: State, entity: StableId, attribute: string, at: Timestamp, prov: Provenance): Step<()> {
    match s.store.Assert(entity, attribute, Tombstone(at, prov))
    case Err(e) => Step(s, Err(OnWrite(e)))
    case Ok(store) => Step(DropVectors(s.(store := store), entity, attribute), Ok(()))
  }

  function Erase(s: State, entity: StableId, attribute: string): Step<nat> {
    match s.store.Erase(entity, attribute)
    case Err(e) => Step(s, Err(OnWrite(e)))
    case Ok((store, removed)) => Step(DropVectors(s.(store := store), entity, attribute), Ok(removed))
  }

  function EraseEdges(s: State, entity: StableId): Step<nat> {
    match s.store.EraseEdges(entity)
    case Err(e) => Step(s, Err(OnWrite(e)))
    case Ok((store, removed)) => Step(s.(store := store), Ok(removed))
  }

  function PushEdge(s: State, t: Triple, v: EdgeVersion): Step<()> {
    match s.store.PushEdge(t, v)
    case Err(e) => Step(s, Err(OnWrite(e)))
    case Ok(store) => Step(s.(store := store), Ok(()))
  }

  function Relate(s: State, t: Triple, valid: Interval, prov: Provenance): Step<()> {
    PushEdge(s, t, EdgeVersion(true, valid, prov))
  }

  function Unrelate(s: State, t: Triple, at: Timestamp, prov: Provenance): Step<()> {
    PushEdge(s, t, EdgeVersion(false, Since(at), prov))
  }

  // ----- rebuilding the index

  datatype Row = Row(id: AssertionId, vector: Vector)

  /** The rows a list of vectors leaves: the last one supplied for each id. */
  function RowsOf(rows: seq<Row>): (m: map<AssertionId, Vector>)
    ensures forall id :: id in m <==> exists r :: r in rows && r.id == id
    ensures forall id :: id in m ==> Row(id, m[id]) in rows
  {
    if rows == [] then map[]
    else
      var n := |rows| - 1;
      assert rows == rows[..n] + [rows[n]];
      assert rows[n] in rows;
      RowsOf(rows[..n])[rows[n].id := rows[n].vector]
  }

  predicate RowsAccepted(s: State, fresh_: VectorIndex, rows: seq<Row>) {
    forall r :: r in rows ==> r.id in s.assertions && fresh_.Check(r.vector).None?
  }

  /** A vector for every assertion and none for anything else, or the index is left as it was. */
  predicate Rebuildable(s: State, dim: nat, metric: Metric, rows: seq<Row>) {
    && RowsAccepted(s, VectorIndex(dim, metric, map[]), rows)
    && RowsOf(rows).Keys == s.assertions.Keys
  }

  function RebuiltIndex(s: State, dim: nat, metric: Metric, rows: seq<Row>): State {
    if Rebuildable(s, dim, metric, rows)
    then s.(index := VectorIndex(dim, metric, RowsOf(rows)))
    else s
  }
}
