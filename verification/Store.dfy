/**
 The two-clock store under the engine: a log of versions for each attribute of each entity, and
 a log of edge versions for each triple.

 Owned by one engine and never shared, so it is a value the engine replaces.
 */
module Store {
  import opened Core
  import opened Ordering

  /** One assertion about an attribute. `None` is a tombstone, distinct from silence. */
  datatype Version = Version(
    value: Option<string>,
    valid: Interval,
    provenance: Provenance,
    supersession: Supersession,
    accordingTo: Option<StableId>)
  {
    function IngestedAt(): Timestamp { provenance.observedAt }
  }

  /** What the store writes for an assertion: a tombstone always corrects. */
  function Written(v: Version): Version {
    if v.value.None? then v.(supersession := Corrects) else v
  }

  function WrittenAll(log: seq<Version>): (r: seq<Version>)
    ensures |r| == |log|
    ensures forall i :: 0 <= i < |log| ==> r[i] == Written(log[i])
  {
    seq(|log|, i requires 0 <= i < |log| => Written(log[i]))
  }

  datatype EdgeVersion = EdgeVersion(present: bool, valid: Interval, provenance: Provenance) {
    function IngestedAt(): Timestamp { provenance.observedAt }
  }

  type Attributes = map<string, seq<Version>>

  function LogOf(attributes: Attributes, attribute: string): seq<Version> {
    if attribute in attributes then attributes[attribute] else []
  }

  datatype Entity = Entity(kind: string, createdAt: Timestamp, attributes: Attributes)

  datatype Triple = Triple(subject: StableId, predicate_: string, object_: StableId) {
    predicate Touches(id: StableId) { subject == id || object_ == id }
  }

  datatype StoreError = UnknownEntity(id: StableId) | SelfEdge(id: StableId) | CorruptStore

  type Edges = map<Triple, seq<EdgeVersion>>

  function EdgeLog(edges: Edges, t: Triple): seq<EdgeVersion> {
    if t in edges then edges[t] else []
  }

  datatype MemoryStore = MemoryStore(entities: map<StableId, Entity>, nextId: StableId, edges: Edges) {

    function History(id: StableId, attribute: string): seq<Version> {
      if id in entities then LogOf(entities[id].attributes, attribute) else []
    }

    function CreateEntity(kind: string, createdAt: Timestamp): (MemoryStore, StableId) {
      (this.(entities := entities[nextId := Entity(kind, createdAt, map[])], nextId := nextId + 1),
       nextId)
    }

    /** Record one assertion: this appends, and never overwrites. */
    function Assert(id: StableId, attribute: string, v: Version): Result<MemoryStore, StoreError> {
      if id !in entities then Err(UnknownEntity(id))
      else
        var e := entities[id];
        var log := LogOf(e.attributes, attribute) + [Written(v)];
        Ok(this.(entities := entities[id := e.(attributes := e.attributes[attribute := log])]))
    }

    /** The store without one slot's log, and that log's length. */
    function Erase(id: StableId, attribute: string): Result<(MemoryStore, nat), StoreError> {
      if id !in entities then Err(UnknownEntity(id))
      else
        var e := entities[id];
        Ok((this.(entities := entities[id := e.(attributes := e.attributes - {attribute})]),
            |LogOf(e.attributes, attribute)|))
    }

    /** One more edge version, or a refusal for an unknown or repeated endpoint. */
    function PushEdge(t: Triple, v: EdgeVersion): Result<MemoryStore, StoreError> {
      if t.subject !in entities then Err(UnknownEntity(t.subject))
      else if t.object_ !in entities then Err(UnknownEntity(t.object_))
      else if t.subject == t.object_ then Err(SelfEdge(t.subject))
      else Ok(this.(edges := edges[t := EdgeLog(edges, t) + [v]]))
    }

    function Touching(id: StableId): set<Triple> {
      set t | t in edges && t.Touches(id)
    }

    /** The store without the triples naming an entity at either end, and their number. */
    function EraseEdges(id: StableId): Result<(MemoryStore, nat), StoreError> {
      if id !in entities then Err(UnknownEntity(id))
      else Ok((this.(edges := edges - Touching(id)), |Touching(id)|))
    }

    /** The edges under their merged names; a triple that would join `to` to itself goes. */
    function RepointEdges(from: StableId, to: StableId): Result<MemoryStore, StoreError> {
      if from !in entities then Err(UnknownEntity(from))
      else if to !in entities then Err(UnknownEntity(to))
      else if from == to then Ok(this)
      else Ok(this.(edges := Repointed(edges, from, to)))
    }

    /** The invariants `open` holds a snapshot to. */
    predicate Sound() {
      && (forall id :: id in entities ==> id < nextId)
      && EdgesSound(entities.Keys)
    }

    predicate EdgesSound(known: set<StableId>) {
      forall t :: t in edges ==>
        t.subject in known && t.object_ in known && t.subject != t.object_ && edges[t] != []
    }
  }

  // ----- edges under a merge

  function Renamed(id: StableId, from: StableId, to: StableId): StableId {
    if id == from then to else id
  }

  /** Where a triple stands once `from` has become `to`. */
  function Moved(t: Triple, from: StableId, to: StableId): Triple {
    Triple(Renamed(t.subject, from, to), t.predicate_, Renamed(t.object_, from, to))
  }

  function EdgeKey(v: EdgeVersion): Key { (v.IngestedAt(), 0) }

  /** Concatenate and re-sort by ingestion where both held the triple; otherwise take the log as it stood. */
  function AbsorbLog(held: seq<EdgeVersion>, arriving: seq<EdgeVersion>): seq<EdgeVersion> {
    if held == [] then arriving
    else if arriving == [] then held
    else SortBy(EdgeKey, held + arriving)
  }

  /** The log `from` had for a triple now naming `to`. */
  function ArrivingLog(edges: Edges, t: Triple, from: StableId, to: StableId): seq<EdgeVersion> {
    if t.subject == to then EdgeLog(edges, t.(subject := from))
    else if t.object_ == to then EdgeLog(edges, t.(object_ := from))
    else []
  }

  /** A move that would make a self-edge drops it; every other triple keeps or gains its log. */
  function Repointed(edges: Edges, from: StableId, to: StableId): Edges
    requires from != to
  {
    map t | t in (set e | e in edges :: Moved(e, from, to)) && t.subject != t.object_ ::
      AbsorbLog(EdgeLog(edges, t), ArrivingLog(edges, t, from, to))
  }

  // ----- the version of an edge in force

  predicate Qualifies(v: EdgeVersion, validT: Timestamp, txT: Timestamp) {
    v.IngestedAt() <= txT && v.valid.Contains(validT)
  }

  /** The position of the latest-ingested qualifying version, ties to the later append. */
  function LatestQualifying(log: seq<EdgeVersion>, validT: Timestamp, txT: Timestamp): (w: Option<nat>)
    ensures w.None? ==> forall i :: 0 <= i < |log| ==> !Qualifies(log[i], validT, txT)
    ensures w.Some? ==>
      && w.value < |log| && Qualifies(log[w.value], validT, txT)
      && (forall i :: 0 <= i < |log| && Qualifies(log[i], validT, txT) ==>
            log[i].IngestedAt() <= log[w.value].IngestedAt())
      && (forall i :: w.value < i < |log| && Qualifies(log[i], validT, txT) ==>
            log[i].IngestedAt() < log[w.value].IngestedAt())
  {
    if log == [] then None
    else
      var n := |log| - 1;
      var best := LatestQualifying(log[..n], validT, txT);
      if Qualifies(log[n], validT, txT)
         && (best.None? || log[best.value].IngestedAt() <= log[n].IngestedAt())
      then Some(n) else best
  }

  /** Whether the edge holds then, as known then: some version qualifies and the latest is no tombstone. */
  predicate InForce(log: seq<EdgeVersion>, validT: Timestamp, txT: Timestamp) {
    var w := LatestQualifying(log, validT, txT);
    w.Some? && log[w.value].present
  }
}
