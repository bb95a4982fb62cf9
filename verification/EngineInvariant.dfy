/**
 What every engine state keeps.

 `Sound` is what a restored snapshot is checked for, together with the derived blocking map.
 `Faithful` is what only a state the engine itself produced has: no two assertions name one
 version, questions are distinct ordered pairs, and every stored tombstone corrects.
 */
module EngineInvariant {
  import opened Core
  import opened Ordering
  import opened Store
  import opened Resolution
  import opened EngineState

  // ----- the parts of Sound

  ghost predicate CountersAhead(s: State) {
    && (forall id :: id in s.assertions ==> id < s.nextAssertion)
    && (forall q :: q in s.review ==> q < s.nextReview)
  }

  ghost predicate AssertionResolves(s: State, at: AssertionRef) {
    && at.entity in s.identity
    && at.version < |s.store.History(at.entity, at.attribute)|
  }

  ghost predicate AssertionsResolve(s: State) {
    forall id :: id in s.assertions ==> AssertionResolves(s, s.assertions[id])
  }

  ghost predicate ReviewsKnown(s: State) {
    forall q :: q in s.review ==> s.review[q].a in s.identity && s.review[q].b in s.identity
  }

  ghost predicate NoDuplicates(ids: seq<StableId>) {
    forall i, j :: 0 <= i < j < |ids| ==> ids[i] != ids[j]
  }

  predicate Derives(rs: Ruleset, identity: map<StableId, Record>, key: string, id: StableId) {
    id in identity && key in rs.KeysFor(identity[id])
  }

  /** Under each key exactly the entities whose record derives it; no duplicates, no empty keys. */
  ghost predicate BlocksDerived(rs: Ruleset, identity: map<StableId, Record>, blocks: Blocks) {
    && (forall k :: k in blocks ==> blocks[k] != [] && NoDuplicates(blocks[k]))
    && (forall k, id :: id in BlockOf(blocks, k) <==> Derives(rs, identity, k, id))
  }

  ghost predicate Sound(rs: Ruleset, s: State) {
    && s.store.Sound()
    && s.identity.Keys <= s.store.entities.Keys
    && s.index.rows.Keys == s.assertions.Keys
    && s.index.RowsFit()
    && CountersAhead(s)
    && AssertionsResolve(s)
    && ReviewsKnown(s)
    && BlocksDerived(rs, s.identity, s.blocks)
  }

  // ----- the parts of Faithful

  ghost predicate OneAssertionPerVersion(assertions: map<AssertionId, AssertionRef>) {
    forall x, y :: x in assertions && y in assertions && assertions[x] == assertions[y] ==> x == y
  }

  ghost predicate ReviewsDistinct(review: map<ReviewId, PendingReview>) {
    && (forall q :: q in review ==> review[q].id == q && review[q].a < review[q].b)
    && (forall q, r :: q in review && r in review && review[q].a == review[r].a && review[q].b == review[r].b ==>
          q == r)
  }

  ghost predicate RejectionsKnown(s: State) {
    forall p :: p in s.rejected ==> p.lower < p.higher && p.lower in s.identity && p.higher in s.identity
  }

  ghost predicate LogCorrects(log: seq<Version>) {
    forall i :: 0 <= i < |log| ==> Written(log[i]) == log[i]
  }

  ghost predicate TombstonesCorrect(store: MemoryStore) {
    forall id, a :: id in store.entities && a in store.entities[id].attributes ==>
      LogCorrects(store.entities[id].attributes[a])
  }

  ghost predicate Faithful(s: State) {
    && OneAssertionPerVersion(s.assertions)
    && ReviewsDistinct(s.review)
    && RejectionsKnown(s)
    && TombstonesCorrect(s.store)
  }

  lemma NewIsSound(rs: Ruleset, index: VectorIndex)
    requires index.rows == map[]
    ensures Sound(rs, New(index)) && Faithful(New(index))
  {
  }

  // ----- blocking

  /** Whatever the live map's history, resolution sees exactly what the identity records derive. */
  lemma CandidatesAreDerived(rs: Ruleset, s: State, mention: Record)
    requires BlocksDerived(rs, s.identity, s.blocks)
    ensures forall id :: id in CandidateSet(rs, s, mention) <==>
      id in s.identity &&
      (rs.blocking == [] || exists k :: k in rs.KeysFor(mention) && k in rs.KeysFor(s.identity[id]))
  {
    hide KeysFrom;
    if rs.blocking != [] {
      forall id
        ensures id in CandidateSet(rs, s, mention) <==>
          id in s.identity && exists k :: k in rs.KeysFor(mention) && k in rs.KeysFor(s.identity[id])
      {
        if id in CandidateSet(rs, s, mention) {
          var k :| k in rs.KeysFor(mention) && k in s.blocks && id in s.blocks[k];
          assert id in BlockOf(s.blocks, k);
          assert Derives(rs, s.identity, k, id);
        }
        if id in s.identity && exists k :: k in rs.KeysFor(mention) && k in rs.KeysFor(s.identity[id]) {
          var k :| k in rs.KeysFor(mention) && k in rs.KeysFor(s.identity[id]);
          assert Derives(rs, s.identity, k, id);
          assert id in BlockOf(s.blocks, k);
        }
      }
    }
  }

  lemma BestMatchIsUnique(rs: Ruleset, s: State, mention: Record, a: StableId, b: StableId)
    requires Wins(rs, s, mention, a) && Wins(rs, s, mention, b)
    ensures a == b
  {
    hide CandidateSet;
    assert Banded(rs, s, mention, a, Match) && Banded(rs, s, mention, b, Match);
  }

  /** The winner, when there is one, is the entity no other match outscores. */
  lemma BestMatchIs(rs: Ruleset, s: State, mention: Record, id: StableId)
    requires Wins(rs, s, mention, id)
    ensures BestMatch(rs, s, mention) == Some(id)
  {
    hide CandidateSet, Wins;
    var best :| BestMatch(rs, s, mention) == Some(best) && Wins(rs, s, mention, best);
    BestMatchIsUnique(rs, s, mention, id, best);
  }

  lemma MatchIsKnown(rs: Ruleset, s: State, mention: Record, entity: StableId)
    requires BestMatch(rs, s, mention) == Some(entity)
    ensures entity in s.identity
  {
  }

  lemma NoDuplicatesWith(ids: seq<StableId>, id: StableId)
    requires NoDuplicates(ids)
    ensures NoDuplicates(WithMember(ids, id)) && WithMember(ids, id) != []
    ensures forall x :: x in WithMember(ids, id) <==> x in ids || x == id
  {
  }

  /** Keying a record that only gained fields keeps the map derived. */
  lemma KeyingKeepsDerived(rs: Ruleset, identity: map<StableId, Record>, blocks: Blocks, id: StableId, record: Record)
    requires BlocksDerived(rs, identity, blocks)
    requires id in identity ==> forall k :: k in rs.KeysFor(identity[id]) ==> k in rs.KeysFor(record)
    ensures BlocksDerived(rs, identity[id := record], Keyed(blocks, id, rs.KeysFor(record)))
  {
    var keys := rs.KeysFor(record);
    var blocks', identity' := Keyed(blocks, id, keys), identity[id := record];
    forall k | k in blocks' ensures blocks'[k] != [] && NoDuplicates(blocks'[k]) {
      NoDuplicatesWith(BlockOf(blocks, k), id);
    }
    forall k, x ensures x in BlockOf(blocks', k) <==> Derives(rs, identity', k, x) {
      assert x in BlockOf(blocks, k) <==> Derives(rs, identity, k, x);
      if k in blocks' && k in keys { NoDuplicatesWith(BlockOf(blocks, k), id); }
    }
  }

  lemma {:induction false} FilterKeepsDistinct(keep: StableId -> bool, ids: seq<StableId>)
    requires NoDuplicates(ids)
    ensures NoDuplicates(Filter(keep, ids))
  {
    if ids != [] {
      FilterKeepsDistinct(keep, ids[1..]);
      assert forall x :: x in Filter(keep, ids[1..]) ==> x in ids[1..];
      assert ids[0] !in ids[1..];
    }
  }

  /** Striking an entity leaves the map derived from the identities without it. */
  lemma UnkeyingKeepsDerived(rs: Ruleset, identity: map<StableId, Record>, blocks: Blocks, id: StableId)
    requires BlocksDerived(rs, identity, blocks)
    ensures BlocksDerived(rs, identity - {id}, Unkeyed(blocks, id))
  {
    var blocks', identity' := Unkeyed(blocks, id), identity - {id};
    forall k | k in blocks' ensures blocks'[k] != [] && NoDuplicates(blocks'[k]) {
      FilterKeepsDistinct(Other(id), blocks[k]);
    }
    forall k, x ensures x in BlockOf(blocks', k) <==> Derives(rs, identity', k, x) {
      assert x in BlockOf(blocks, k) <==> Derives(rs, identity, k, x);
      if k in blocks { assert x in Filter(Other(id), blocks[k]) <==> x in blocks[k] && x != id; }
    }
  }

  lemma FoldKeepsDerived(rs: Ruleset, s: State, entity: StableId, mention: Record)
    requires BlocksDerived(rs, s.identity, s.blocks)
    ensures var s' := FoldIdentity(rs, s, entity, mention);
      && BlocksDerived(rs, s'.identity, s'.blocks)
      && s'.identity.Keys == s.identity.Keys
      && s' == s.(identity := s'.identity, blocks := s'.blocks)
      && (forall id :: id in s.identity && id != entity ==> s'.identity[id] == s.identity[id])
      && (entity in s.identity ==> s'.identity[entity] == Folded(s.identity[entity], mention))
  {
    if entity in s.identity {
      if mention.Keys <= s.identity[entity].Keys {
        assert Folded(s.identity[entity], mention) == s.identity[entity];
      } else {
        hide BlocksDerived, Keyed;
        FoldingAddsKeys(rs, s.identity[entity], mention);
        KeyingKeepsDerived(rs, s.identity, s.blocks, entity, Folded(s.identity[entity], mention));
      }
    }
  }
}
