/**
 Restoring an engine: every check at the door, in the order the code makes them, and then the
 blocking map rebuilt.
 */
module Restore {
  import opened Core
  import opened Ordering
  import opened Store
  import opened Resolution
  import opened EngineState
  import opened EngineInvariant
  import opened Persist
  import opened Engine

  /** Whether a counter is past every id in use, read off the highest one. */
  method CounterAhead(ids: set<nat>, next: nat) returns (ok: bool)
    ensures ok <==> forall id :: id in ids ==> id < next
  {
    var order := InOrder(ids);
    if order == [] {
      assert forall id :: id in ids ==> id in order;
      return true;
    }
    var highest := order[|order| - 1];
    assert highest in order;
    forall id | id in ids ensures id <= highest {
      assert id in order;
    }
    ok := highest < next;
  }

  /** Whether every identity is an entity the store holds. */
  method IdentitiesHeld(p: Persisted) returns (ok: bool)
    ensures ok <==> forall id :: id in p.identity ==> id in p.store.entities
  {
    var todo := p.identity.Keys;
    while todo != {}
      invariant todo <= p.identity.Keys
      invariant forall id :: id in p.identity && id !in todo ==> id in p.store.entities
      decreases |todo|
    {
      var id :| id in todo;
      if id !in p.store.entities {
        return false;
      }
      todo := todo - {id};
    }
    return true;
  }

  /** Whether every assertion names a known entity, a version that exists, and has a vector. */
  method AssertionsHold(p: Persisted) returns (ok: bool)
    ensures ok <==> forall id :: id in p.assertions ==> AssertionHolds(p, id, p.assertions[id])
  {
    var todo := p.assertions.Keys;
    while todo != {}
      invariant todo <= p.assertions.Keys
      invariant forall id :: id in p.assertions && id !in todo ==> AssertionHolds(p, id, p.assertions[id])
      decreases |todo|
    {
      var id :| id in todo;
      var entry := p.assertions[id];
      if entry.entity !in p.store.entities {
        return false;
      }
      if entry.entity !in p.identity {
        return false;
      }
      if |p.store.History(entry.entity, entry.attribute)| <= entry.version {
        return false;
      }
      if id !in p.index.rows {
        return false;
      }
      todo := todo - {id};
    }
    return true;
  }

  /** Whether every open question is about two known entities. */
  method QuestionsKnown(p: Persisted) returns (ok: bool)
    ensures ok <==> forall q :: q in p.review ==> p.review[q].a in p.identity && p.review[q].b in p.identity
  {
    var todo := p.review.Keys;
    while todo != {}
      invariant todo <= p.review.Keys
      invariant forall q :: q in p.review && q !in todo ==> p.review[q].a in p.identity && p.review[q].b in p.identity
      decreases |todo|
    {
      var q :| q in todo;
      var pending := p.review[q];
      if pending.a !in p.identity || pending.b !in p.identity {
        return false;
      }
      todo := todo - {q};
    }
    return true;
  }

  /** Accept or refuse a snapshot; the ruleset comes from the caller and is not part of it. */
  method Open(p: Persisted, ruleset: Ruleset) returns (r: Result<Engine, EngineError>)
    ensures r.Ok? <==> Acceptable(p)
    ensures r.Ok? ==>
      && fresh(r.value) && r.value.ruleset == ruleset
      && r.value.View() == Restored(ruleset, p) && r.value.Valid()
  {
    hide MemoryStore.Sound, IndexOpens, AssertionHolds, Sound, RebuiltBlocks;
    if !p.store.Sound() {
      return Err(StoreRefused(CorruptStore));
    }
    if !IndexOpens(p.index) {
      return Err(IndexRefused(CorruptIndex));
    }
    var assertionsAhead := CounterAhead(p.assertions.Keys, p.nextAssertion);
    if !assertionsAhead {
      return Err(CorruptSnapshot);
    }
    var reviewsAhead := CounterAhead(p.review.Keys, p.nextReview);
    if !reviewsAhead {
      return Err(CorruptSnapshot);
    }
    var identities := IdentitiesHeld(p);
    if !identities {
      return Err(CorruptSnapshot);
    }
    var assertions := AssertionsHold(p);
    if !assertions {
      return Err(CorruptSnapshot);
    }
    if |p.index.rows| != |p.assertions| {
      return Err(CorruptSnapshot);
    }
    var questions := QuestionsKnown(p);
    if !questions {
      return Err(CorruptSnapshot);
    }
    var engine := new Engine.FromParts(p, ruleset);
    engine.RebuildBlocks();
    AcceptedIsSound(ruleset, p);
    return Ok(engine);
  }
}
