/**
 What an edge's log says of an instant, and what relating, ending and one more version change of it.
 */
module EdgeLaws {
  import opened Core
  import opened Store
  import opened EngineState

  /** An edge version speaks of an instant: heard by then, and its interval holds it. */
  predicate Speaks(v: EdgeVersion, validT: Timestamp, txT: Timestamp) {
    && v.provenance.observedAt <= txT
    && v.valid.from <= validT && (v.valid.to.Some? ==> validT < v.valid.to.value)
  }

  /** The last word: of the versions that speak, the one heard last, and of those the one appended last. */
  ghost predicate LastWord(log: seq<EdgeVersion>, validT: Timestamp, txT: Timestamp, i: nat) {
    && i < |log| && Speaks(log[i], validT, txT)
    && (forall j :: 0 <= j < |log| && Speaks(log[j], validT, txT) ==>
          log[j].provenance.observedAt <= log[i].provenance.observedAt)
    && (forall j :: i < j < |log| && Speaks(log[j], validT, txT) ==>
          log[j].provenance.observedAt < log[i].provenance.observedAt)
  }

  /** An edge is in force exactly where the last word about it says so. */
  lemma InForceIsLastWord(log: seq<EdgeVersion>, validT: Timestamp, txT: Timestamp)
    ensures InForce(log, validT, txT) <==> exists i: nat :: LastWord(log, validT, txT, i) && log[i].present
  {
    forall v: EdgeVersion ensures Qualifies(v, validT, txT) <==> Speaks(v, validT, txT) {}
    var w := LatestQualifying(log, validT, txT);
    if w.Some? {
      assert LastWord(log, validT, txT, w.value);
    }
    forall i: nat | LastWord(log, validT, txT, i) ensures w == Some(i) {}
  }

  /** An edge is refused for an end nobody knows, the subject first, and for joining an entity to itself. */
  function EdgeAnswer(store: MemoryStore, t: Triple): Result<(), EngineError> {
    if t.subject !in store.entities then Err(NoSuchEntity(t.subject))
    else if t.object_ !in store.entities then Err(NoSuchEntity(t.object_))
    else if t.subject == t.object_ then Err(StoreRefused(SelfEdge(t.subject)))
    else Ok(())
  }

  /** Relating two known entities adds one word: present, for just the interval given, heard when it was. */
  lemma RelateSpeaks(s: State, t: Triple, valid: Interval, prov: Provenance,
                     validT: Timestamp, txT: Timestamp)
    ensures var r := Relate(s, t, valid, prov);
      && r.result == EdgeAnswer(s.store, t)
      && (r.result.Err? ==> r.state == s)
      && (r.result.Ok? ==>
            && r.state == s.(store := s.store.(edges := r.state.store.edges))
            && (forall u :: u != t ==> EdgeLog(r.state.store.edges, u) == EdgeLog(s.store.edges, u))
            && EdgeLog(r.state.store.edges, t) == EdgeLog(s.store.edges, t) + [EdgeVersion(true, valid, prov)])
    ensures var r, log := Relate(s, t, valid, prov), EdgeLog(s.store.edges, t);
      r.result.Ok? ==>
        (InForce(EdgeLog(r.state.store.edges, t), validT, txT) <==>
           if valid.Contains(validT) && prov.observedAt <= txT && !Outranked(log, prov, validT, txT) then true
           else InForce(log, validT, txT))
  {
    AddedWord(EdgeLog(s.store.edges, t), EdgeVersion(true, valid, prov), validT, txT);
  }

  /** And ending it adds the opposite word, from that instant on. */
  lemma UnrelateSpeaks(s: State, t: Triple, at: Timestamp, prov: Provenance,
                       validT: Timestamp, txT: Timestamp)
    ensures var r := Unrelate(s, t, at, prov);
      && r.result == EdgeAnswer(s.store, t)
      && (r.result.Err? ==> r.state == s)
      && (r.result.Ok? ==>
            && r.state == s.(store := s.store.(edges := r.state.store.edges))
            && (forall u :: u != t ==> EdgeLog(r.state.store.edges, u) == EdgeLog(s.store.edges, u))
            && EdgeLog(r.state.store.edges, t) == EdgeLog(s.store.edges, t) + [EdgeVersion(false, Since(at), prov)])
    ensures var r, log := Unrelate(s, t, at, prov), EdgeLog(s.store.edges, t);
      r.result.Ok? ==>
        (InForce(EdgeLog(r.state.store.edges, t), validT, txT) <==>
           if at <= validT && prov.observedAt <= txT && !Outranked(log, prov, validT, txT) then false
           else InForce(log, validT, txT))
  {
    AddedWord(EdgeLog(s.store.edges, t), EdgeVersion(false, Since(at), prov), validT, txT);
  }

  /** Something that speaks of the instant was heard later. */
  ghost predicate Outranked(log: seq<EdgeVersion>, prov: Provenance, validT: Timestamp, txT: Timestamp) {
    exists v :: v in log && Speaks(v, validT, txT) && v.provenance.observedAt > prov.observedAt
  }

  lemma AddedWord(log: seq<EdgeVersion>, v: EdgeVersion, validT: Timestamp, txT: Timestamp)
    ensures InForce(log + [v], validT, txT) <==>
      if Speaks(v, validT, txT) && !Outranked(log, v.provenance, validT, txT) then v.present
      else InForce(log, validT, txT)
  {
    assert (log + [v])[..|log|] == log;
    forall v: EdgeVersion ensures Qualifies(v, validT, txT) <==> Speaks(v, validT, txT) {}
    var w := LatestQualifying(log, validT, txT);
    if w.Some? {
      assert log[w.value] in log;
    }
  }
}
