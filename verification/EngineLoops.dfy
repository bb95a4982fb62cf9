/**
 What each of the engine's loops has computed part of the way through: the invariants of the
 methods in `Engine`, each with the lemma for one more step.
 */
module EngineLoops {
  import opened Core
  import opened Ordering
  import opened Store
  import opened Resolution
  import opened EngineState
  import opened EngineInvariant
  import opened Persist

  /** A candidate and the evidence for it. */
  datatype Scored = Scored(id: StableId, score: real)

  // ----- remembering

  lemma KeyedOneMore(blocks: Blocks, entity: StableId, keys: seq<string>, i: nat)
    requires i < |keys|
    ensures Keyed(blocks, entity, keys[..i + 1]) ==
      var before := Keyed(blocks, entity, keys[..i]);
      before[keys[i] := WithMember(BlockOf(before, keys[i]), entity)]
  {
    assert keys[..i + 1] == keys[..i] + [keys[i]];
  }

  /** A record with every field of a mention folded in but those still to come. */
  function Taken(known: Record, mention: Record, todo: set<string>): Record {
    Folded(known, mention - todo)
  }

  lemma NothingTaken(known: Record, mention: Record)
    ensures Taken(known, mention, mention.Keys) == known
  {
    assert mention - mention.Keys == map[];
  }

  lemma OneMoreTaken(known: Record, mention: Record, todo: set<string>, field: string)
    requires field in todo && todo <= mention.Keys
    ensures Taken(known, mention, todo - {field}) ==
      if field in known then Taken(known, mention, todo) else Taken(known, mention, todo)[field := mention[field]]
  {
  }

  lemma AllTaken(known: Record, mention: Record)
    ensures Taken(known, mention, {}) == Folded(known, mention)
  {
    assert mention - {} == mention;
  }

  function Ids(pairs: seq<Scored>): (ids: seq<StableId>)
    ensures |ids| == |pairs|
    ensures forall i :: 0 <= i < |pairs| ==> ids[i] == pairs[i].id
  {
    seq(|pairs|, i requires 0 <= i < |pairs| => pairs[i].id)
  }

  ghost function InBand(rs: Ruleset, s: State, mention: Record, band: Decision): StableId -> bool {
    (id: StableId) => Banded(rs, s, mention, id, band)
  }

  /** The winner among the candidates looked at so far. */
  ghost predicate BestSoFar(rs: Ruleset, s: State, mention: Record, ids: seq<StableId>, best: Option<Scored>) {
    match best
    case None => forall id :: id in ids ==> !Banded(rs, s, mention, id, Match)
    case Some(Scored(id, score)) =>
      && id in ids && Banded(rs, s, mention, id, Match) && score == ScoreOf(rs, s, mention, id)
      && forall other :: other in ids && Banded(rs, s, mention, other, Match) ==>
           var theirs := ScoreOf(rs, s, mention, other);
           theirs < score || (theirs == score && id <= other)
  }

  lemma NothingScored(rs: Ruleset, s: State, mention: Record, ids: seq<StableId>, keep: StableId -> bool)
    ensures BestSoFar(rs, s, mention, ids[..0], None)
    ensures Filter(keep, ids[..0]) == []
  {
  }

  /** How one more candidate moves the winner and the review list. */
  lemma OneMoreScored(rs: Ruleset, s: State, mention: Record, ids: seq<StableId>, i: nat, best: Option<Scored>,
                      keep: StableId -> bool)
    requires ids == InOrder(CandidateSet(rs, s, mention)) && i < |ids|
    requires BestSoFar(rs, s, mention, ids[..i], best)
    ensures Filter(keep, ids[..i + 1]) == Filter(keep, ids[..i]) + (if keep(ids[i]) then [ids[i]] else [])
    ensures ids[i] in CandidateSet(rs, s, mention)
    ensures ids[i] !in s.identity || rs.Decide(ScoreOf(rs, s, mention, ids[i])) != Match ==>
      BestSoFar(rs, s, mention, ids[..i + 1], best)
    ensures ids[i] in s.identity && rs.Decide(ScoreOf(rs, s, mention, ids[i])) == Match ==>
      BestSoFar(rs, s, mention, ids[..i + 1],
        if best.None? || ScoreOf(rs, s, mention, ids[i]) > best.value.score
        then Some(Scored(ids[i], ScoreOf(rs, s, mention, ids[i]))) else best)
  {
    hide CandidateSet, Filter, InOrder;
    var id := ids[i];
    assert id in ids;
    assert ids[..i + 1] == ids[..i] + [id];
    FilterAppend(keep, ids[..i], [id]);
    if keep(id) { FilterAll(keep, [id]); } else { FilterNone(keep, [id]); }
    assert forall x :: x in ids[..i] ==> x < id;
  }

  lemma BestOfAll(rs: Ruleset, s: State, mention: Record, ids: seq<StableId>, best: Option<Scored>)
    requires ids == InOrder(CandidateSet(rs, s, mention)) && BestSoFar(rs, s, mention, ids, best)
    ensures best.Some? ==> BestMatch(rs, s, mention) == Some(best.value.id)
    ensures best.None? ==> BestMatch(rs, s, mention).None?
  {
    hide InOrder;
    if best.Some? {
      assert Wins(rs, s, mention, best.value.id);
      BestMatchIs(rs, s, mention, best.value.id);
    } else {
      forall id ensures !Wins(rs, s, mention, id) {}
    }
  }

  function NotAnswered(s: State, entity: StableId): Scored -> bool {
    (p: Scored) => !AlreadyRejected(s, entity, p.id)
  }

  /** The questions a list of scored pairs becomes. */
  function Filed(entity: StableId, pairs: seq<Scored>, first: ReviewId): map<ReviewId, PendingReview> {
    map q | q in Numbers(first, |pairs|) ::
      var pair := PairOf(entity, pairs[q - first].id);
      PendingReview(q, pair.lower, pair.higher, pairs[q - first].score)
  }

  lemma FiledOneMore(review: map<ReviewId, PendingReview>, entity: StableId, pairs: seq<Scored>, i: nat,
                     first: ReviewId)
    requires i < |pairs|
    ensures var pair := PairOf(entity, pairs[i].id);
      review + Filed(entity, pairs[..i + 1], first) ==
      (review + Filed(entity, pairs[..i], first))[
        first + i := PendingReview(first + i, pair.lower, pair.higher, pairs[i].score)]
  {
    hide PairOf;
    var so, next := Filed(entity, pairs[..i], first), Filed(entity, pairs[..i + 1], first);
    assert next.Keys == so.Keys + {first + i};
    assert forall q :: q in so ==> next[q] == so[q];
  }

  lemma NothingFiled(review: map<ReviewId, PendingReview>, entity: StableId, pairs: seq<Scored>, first: ReviewId)
    ensures review + Filed(entity, pairs[..0], first) == review
  {
  }

  function Under(blocks: Blocks, keys: seq<string>): set<StableId> {
    set k, id | k in keys && id in BlockOf(blocks, k) :: id
  }

  lemma UnderOneMore(blocks: Blocks, keys: seq<string>, i: nat)
    requires i < |keys|
    ensures Under(blocks, keys[..i + 1]) == Under(blocks, keys[..i]) + MemberIds(BlockOf(blocks, keys[i]))
  {
    assert keys[..i + 1] == keys[..i] + [keys[i]];
  }

  lemma OneMoreId(ids: seq<StableId>, id: StableId)
    ensures MemberIds(ids + [id]) == MemberIds(ids) + {id}
    ensures id in MemberIds(ids) <==> id in ids
  {
  }

  lemma UnderIsCandidates(rs: Ruleset, s: State, mention: Record)
    requires rs.blocking != []
    ensures Under(s.blocks, rs.KeysFor(mention)) == CandidateSet(rs, s, mention)
  {
    var keys := rs.KeysFor(mention);
    forall id ensures id in Under(s.blocks, keys) <==> id in CandidateSet(rs, s, mention) {
      if id in Under(s.blocks, keys) {
        var k :| k in keys && id in BlockOf(s.blocks, k);
        assert k in s.blocks && id in s.blocks[k];
      }
      if id in CandidateSet(rs, s, mention) {
        var k :| k in keys && k in s.blocks && id in s.blocks[k];
        assert id in BlockOf(s.blocks, k);
      }
    }
  }

  lemma {:induction false} IdsOfFilter(s: State, entity: StableId, pairs: seq<Scored>)
    ensures Ids(Filter(NotAnswered(s, entity), pairs)) == Filter(Askables(s, entity), Ids(pairs))
  {
    hide AlreadyRejected;
    if pairs != [] {
      IdsOfFilter(s, entity, pairs[1..]);
      FilterFirst(NotAnswered(s, entity), pairs);
      FilterFirst(Askables(s, entity), Ids(pairs));
      hide Filter;
      assert Ids(pairs)[1..] == Ids(pairs[1..]);
    }
  }

  function Askables(s: State, entity: StableId): StableId -> bool {
    (id: StableId) => !AlreadyRejected(s, entity, id)
  }

  /** Filtering the review band by what has been answered is exactly what there is to ask. */
  lemma AskedIsAskable(rs: Ruleset, s: State, created: State, now: State, entity: StableId, mention: Record,
                       pairs: seq<Scored>, asked: seq<Scored>)
    requires now.identity == created.identity && now.rejected == created.rejected
    requires Ids(pairs) == Filter(InBand(rs, s, mention, Review), InOrder(CandidateSet(rs, s, mention)))
    requires forall p :: p in pairs ==> p.id in s.identity && p.score == ScoreOf(rs, s, mention, p.id)
    requires asked == Filter(NotAnswered(now, entity), pairs)
    ensures var others := Askable(rs, s, created, entity, mention);
      && Ids(asked) == others && |asked| == |others|
      && (forall id :: id in others ==> id in s.identity)
      && Filed(entity, asked, s.nextReview) == Questions(rs, s, entity, mention, others, s.nextReview)
  {
    IdsAreAskable(rs, s, created, now, entity, mention, pairs);
    FiledIsQuestions(rs, s, entity, mention, asked, s.nextReview);
  }

  lemma IdsAreAskable(rs: Ruleset, s: State, created: State, now: State, entity: StableId, mention: Record,
                      pairs: seq<Scored>)
    requires now.identity == created.identity && now.rejected == created.rejected
    requires Ids(pairs) == Filter(InBand(rs, s, mention, Review), InOrder(CandidateSet(rs, s, mention)))
    ensures Ids(Filter(NotAnswered(now, entity), pairs)) == Askable(rs, s, created, entity, mention)
  {
    hide CandidateSet, InOrder, Filter;
    var band := InOrder(CandidateSet(rs, s, mention));
    IdsOfFilter(now, entity, pairs);
    FilterAscends(InBand(rs, s, mention, Review), band);
    FilterAscends(Askables(now, entity), Ids(pairs));
    forall id ensures AlreadyRejected(now, entity, id) == AlreadyRejected(created, entity, id) {}
    AscendingIsUnique(Filter(Askables(now, entity), Ids(pairs)), Askable(rs, s, created, entity, mention));
  }

  lemma FiledIsQuestions(rs: Ruleset, s: State, entity: StableId, mention: Record, asked: seq<Scored>, first: ReviewId)
    requires forall p :: p in asked ==> p.id in s.identity && p.score == ScoreOf(rs, s, mention, p.id)
    ensures forall id :: id in Ids(asked) ==> id in s.identity
    ensures Filed(entity, asked, first) == Questions(rs, s, entity, mention, Ids(asked), first)
  {
    forall i | 0 <= i < |asked| ensures Ids(asked)[i] in s.identity {
      assert asked[i] in asked;
    }
    forall q | q in Numbers(first, |asked|)
      ensures Filed(entity, asked, first)[q] == Questions(rs, s, entity, mention, Ids(asked), first)[q]
    {
      assert asked[q - first] in asked;
    }
  }

  // ----- merging: the copy

  /** A store with the first of some versions already appended to one log. */
  function Copied(store: MemoryStore, id: StableId, attribute: string, versions: seq<Version>): MemoryStore
    requires id in store.entities
  {
    if versions == [] then store
    else
      var e := store.entities[id];
      store.(entities := store.entities[id := e.(attributes :=
        e.attributes[attribute := LogOf(e.attributes, attribute) + WrittenAll(versions)])])
  }

  lemma CopiedOneMore(store: MemoryStore, id: StableId, attribute: string, versions: seq<Version>, i: nat)
    requires id in store.entities && i < |versions|
    ensures id in Copied(store, id, attribute, versions[..i]).entities
    ensures Copied(store, id, attribute, versions[..i]).Assert(id, attribute, versions[i]) ==
      Ok(Copied(store, id, attribute, versions[..i + 1]))
  {
    var e := store.entities[id];
    var log := LogOf(e.attributes, attribute);
    assert WrittenAll(versions[..i + 1]) == WrittenAll(versions[..i]) + [Written(versions[i])];
    assert log + WrittenAll(versions[..i + 1]) == (log + WrittenAll(versions[..i])) + [Written(versions[i])];
    var so, next := Copied(store, id, attribute, versions[..i]), Copied(store, id, attribute, versions[..i + 1]);
    assert LogOf(so.entities[id].attributes, attribute) == log + WrittenAll(versions[..i]);
    var one := so.Assert(id, attribute, versions[i]).value;
    assert one.entities[id].attributes == next.entities[id].attributes;
    assert one.entities == next.entities;
  }

  function Without<V>(m: map<string, V>, todo: set<string>): map<string, V> {
    map a | a in m && a !in todo :: m[a]
  }

  function Only<V>(m: map<string, V>, todo: set<string>): map<string, V> {
    map a | a in m && a in todo :: m[a]
  }

  /** A merge part way: the attributes still to move stand where they stood. */
  function PartlyMerged(store: MemoryStore, kept: StableId, absorbed: StableId, todo: set<string>): MemoryStore
    requires kept in store.entities && absorbed in store.entities && kept != absorbed
  {
    var k, a := store.entities[kept], store.entities[absorbed];
    store.(entities := store.entities[
      kept := k.(attributes := MergedAttributes(k.attributes, Without(a.attributes, todo)))][
      absorbed := a.(attributes := Only(a.attributes, todo))])
  }

  lemma MergedWithNothing(kept: Attributes)
    ensures MergedAttributes(kept, map[]) == kept
  {
    forall a | a in kept ensures MergedAttributes(kept, map[])[a] == kept[a] {
      assert WrittenAll([]) == [];
      assert kept[a] + [] == kept[a];
    }
  }

  lemma NothingMerged(store: MemoryStore, kept: StableId, absorbed: StableId)
    requires kept in store.entities && absorbed in store.entities && kept != absorbed
    ensures PartlyMerged(store, kept, absorbed, store.entities[absorbed].attributes.Keys) == store
  {
    var k, a := store.entities[kept], store.entities[absorbed];
    assert Only(a.attributes, a.attributes.Keys) == a.attributes;
    assert Without(a.attributes, a.attributes.Keys) == map[];
    MergedWithNothing(k.attributes);
    assert PartlyMerged(store, kept, absorbed, a.attributes.Keys).entities == store.entities;
  }

  /** Moving one attribute: its versions copied onto the survivor's log, then erased. */
  function AttributeMoved(store: MemoryStore, kept: StableId, absorbed: StableId, attribute: string): MemoryStore
    requires kept in store.entities && absorbed in store.entities && kept != absorbed
  {
    var copied := Copied(store, kept, attribute, store.History(absorbed, attribute));
    var a := store.entities[absorbed];
    copied.(entities := copied.entities[absorbed := a.(attributes := a.attributes - {attribute})])
  }

  lemma OneMoreMerged(store: MemoryStore, kept: StableId, absorbed: StableId, todo: set<string>, attribute: string)
    requires kept in store.entities && absorbed in store.entities && kept != absorbed
    requires attribute in todo && todo <= store.entities[absorbed].attributes.Keys
    ensures AttributeMoved(PartlyMerged(store, kept, absorbed, todo), kept, absorbed, attribute) ==
      PartlyMerged(store, kept, absorbed, todo - {attribute})
  {
    var k, a := store.entities[kept], store.entities[absorbed];
    var so, next := PartlyMerged(store, kept, absorbed, todo), PartlyMerged(store, kept, absorbed, todo - {attribute});
    var one := AttributeMoved(so, kept, absorbed, attribute);
    assert so.History(absorbed, attribute) == a.attributes[attribute];
    AppendedAttributes(k.attributes, a.attributes, todo, attribute);
    assert Only(a.attributes, todo) - {attribute} == Only(a.attributes, todo - {attribute});
    assert one.entities[kept] == next.entities[kept];
    assert one.entities[absorbed] == next.entities[absorbed];
    assert one.entities == next.entities;
  }

  lemma MergedLog(kept: Attributes, absorbed: Attributes, a: string)
    ensures a in MergedAttributes(kept, absorbed) <==> a in kept || (a in absorbed && absorbed[a] != [])
    ensures LogOf(MergedAttributes(kept, absorbed), a) == LogOf(kept, a) + WrittenAll(LogOf(absorbed, a))
  {
    assert WrittenAll([]) == [];
  }

  lemma SameAttributes(x: Attributes, y: Attributes)
    requires forall a :: (a in x <==> a in y) && LogOf(x, a) == LogOf(y, a)
    ensures x == y
  {
    forall a | a in x ensures x[a] == y[a] {
      assert LogOf(x, a) == LogOf(y, a);
    }
  }

  lemma AppendedAttributes(kept: Attributes, absorbed: Attributes, todo: set<string>, attribute: string)
    requires attribute in todo && todo <= absorbed.Keys
    ensures var so := MergedAttributes(kept, Without(absorbed, todo));
      MergedAttributes(kept, Without(absorbed, todo - {attribute})) ==
      if absorbed[attribute] == [] then so
      else so[attribute := LogOf(so, attribute) + WrittenAll(absorbed[attribute])]
  {
    hide MergedAttributes;
    var so, next := MergedAttributes(kept, Without(absorbed, todo)),
      MergedAttributes(kept, Without(absorbed, todo - {attribute}));
    var one := if absorbed[attribute] == [] then so
               else so[attribute := LogOf(so, attribute) + WrittenAll(absorbed[attribute])];
    forall a ensures (a in one <==> a in next) && LogOf(one, a) == LogOf(next, a) {
      MergedLog(kept, Without(absorbed, todo), a);
      MergedLog(kept, Without(absorbed, todo - {attribute}), a);
      if a == attribute {
        assert WrittenAll([]) == [] && LogOf(kept, a) + [] == LogOf(kept, a);
      }
    }
    SameAttributes(one, next);
  }

  lemma AllMerged(store: MemoryStore, kept: StableId, absorbed: StableId)
    requires kept in store.entities && absorbed in store.entities && kept != absorbed
    ensures PartlyMerged(store, kept, absorbed, {}).RepointEdges(absorbed, kept) ==
      Ok(MergedStore(store, kept, absorbed))
  {
    hide Repointed, MergedAttributes;
    var a := store.entities[absorbed];
    assert Without(a.attributes, {}) == a.attributes;
    assert Only(a.attributes, {}) == map[];
  }

  /** The survivor's log lengths, read before the copy starts. */
  function Offsets(store: MemoryStore, kept: StableId, absorbed: StableId): map<string, nat>
    requires absorbed in store.entities
  {
    map a | a in store.entities[absorbed].attributes :: |store.History(kept, a)|
  }

  // ----- merging: identity and questions

  /** Blocks with one entity struck from all but the keys still to come. */
  function Struck(blocks: Blocks, entity: StableId, todo: set<string>): Blocks {
    map k | k in blocks :: if k in todo then blocks[k] else Filter(Other(entity), blocks[k])
  }

  /** The open questions with those before the `i`th already renamed or settled. */
  ghost predicate RenamedSoFar(was: map<ReviewId, PendingReview>, now: map<ReviewId, PendingReview>,
                               seen: set<Settled>, order: seq<ReviewId>, i: nat,
                               kept: StableId, absorbed: StableId)
    requires i <= |order| && forall q :: q in order <==> q in was
  {
    && QueueSoFar(was, now, MergedReviews(was, kept, absorbed), order[..i], order[i..])
    && SeenSoFar(was, seen, order[..i], kept, absorbed)
  }

  ghost predicate QueueSoFar(was: map<ReviewId, PendingReview>, now: map<ReviewId, PendingReview>,
                             merged: map<ReviewId, PendingReview>, before: seq<ReviewId>, rest: seq<ReviewId>)
    requires forall q :: q in rest ==> q in was
  {
    && (forall q :: q in rest ==> q in now && now[q] == was[q])
    && (forall q :: q in before ==> (q in now <==> q in merged) && (q in now ==> now[q] == merged[q]))
    && now.Keys <= was.Keys
  }

  ghost predicate SeenSoFar(was: map<ReviewId, PendingReview>, seen: set<Settled>, before: seq<ReviewId>,
                            kept: StableId, absorbed: StableId)
    requires forall q :: q in before ==> q in was
  {
    forall p :: p in seen <==> p.lower != p.higher && Asked(was, before, kept, absorbed, p)
  }

  ghost predicate Asked(was: map<ReviewId, PendingReview>, before: seq<ReviewId>, kept: StableId, absorbed: StableId,
                        p: Settled)
    requires forall q :: q in before ==> q in was
  {
    exists q :: q in before && RenamedPair(was[q], kept, absorbed) == p
  }

  /** A question survives exactly when its pair is two entities nobody has yet been asked about. */
  lemma AskedBefore(was: map<ReviewId, PendingReview>, order: seq<ReviewId>, i: nat, kept: StableId, absorbed: StableId)
    requires Ascending(order) && i < |order| && forall q :: q in order <==> q in was
    ensures var pair := RenamedPair(was[order[i]], kept, absorbed);
      StillAsks(was, kept, absorbed, order[i]) <==>
        pair.lower != pair.higher && !Asked(was, order[..i], kept, absorbed, pair)
  {
    var q := order[i];
    var pair := RenamedPair(was[q], kept, absorbed);
    assert forall e :: e in order[..i] <==> e in was && e < q by {
      forall e ensures e in order[..i] <==> e in was && e < q {
        if e in order[..i] {
          var n :| 0 <= n < i && order[n] == e;
        }
        if e in was && e < q {
          var n :| 0 <= n < |order| && order[n] == e;
          assert n < i;
          assert order[..i][n] == e;
        }
      }
    }
    hide RenamedPair;
  }

  lemma AskedOneMore(was: map<ReviewId, PendingReview>, before: seq<ReviewId>, q: ReviewId, kept: StableId,
                     absorbed: StableId, p: Settled)
    requires q in was && forall e :: e in before ==> e in was
    ensures Asked(was, before + [q], kept, absorbed, p) <==>
      Asked(was, before, kept, absorbed, p) || RenamedPair(was[q], kept, absorbed) == p
  {
    hide RenamedPair;
    if Asked(was, before, kept, absorbed, p) {
      var e :| e in before && RenamedPair(was[e], kept, absorbed) == p;
      assert e in before + [q];
    }
    assert q in before + [q];
  }

  lemma Split(order: seq<ReviewId>, i: nat)
    requires Ascending(order) && i < |order|
    ensures order[..i + 1] == order[..i] + [order[i]] && order[i..] == [order[i]] + order[i + 1..]
    ensures order[i] !in order[..i] && order[i] !in order[i + 1..]
  {
  }

  lemma QueueOneMore(was: map<ReviewId, PendingReview>, now: map<ReviewId, PendingReview>,
                     merged: map<ReviewId, PendingReview>, before: seq<ReviewId>, q: ReviewId, rest: seq<ReviewId>)
    requires forall e :: e in [q] + rest ==> e in was
    requires QueueSoFar(was, now, merged, before, [q] + rest) && q !in before && q !in rest
    ensures q in now && now[q] == was[q]
    ensures q in merged ==> QueueSoFar(was, now[q := merged[q]], merged, before + [q], rest)
    ensures q !in merged ==> QueueSoFar(was, now - {q}, merged, before + [q], rest)
  {
    assert q in [q] + rest;
    assert forall e :: e in rest ==> e in [q] + rest;
  }

  lemma SeenOneMore(was: map<ReviewId, PendingReview>, seen: set<Settled>, before: seq<ReviewId>, q: ReviewId,
                    kept: StableId, absorbed: StableId)
    requires q in was && (forall e :: e in before ==> e in was) && SeenSoFar(was, seen, before, kept, absorbed)
    ensures var pair := RenamedPair(was[q], kept, absorbed);
      SeenSoFar(was, if pair.lower != pair.higher then seen + {pair} else seen, before + [q], kept, absorbed)
  {
    hide RenamedPair, Asked;
    forall p { AskedOneMore(was, before, q, kept, absorbed, p); }
  }

  /** How one more question moves the queue: rewritten and remembered as asked, or gone. */
  lemma OneMoreRenamed(was: map<ReviewId, PendingReview>, now: map<ReviewId, PendingReview>, seen: set<Settled>,
                       order: seq<ReviewId>, i: nat, kept: StableId, absorbed: StableId)
    requires Ascending(order) && i < |order| && forall q :: q in order <==> q in was
    requires RenamedSoFar(was, now, seen, order, i, kept, absorbed)
    ensures order[i] in now && now[order[i]] == was[order[i]]
    ensures var q := order[i];
      var pair := RenamedPair(was[q], kept, absorbed);
      if pair.lower != pair.higher && pair !in seen
      then RenamedSoFar(was, now[q := was[q].(a := pair.lower, b := pair.higher)],
        seen + {pair}, order, i + 1, kept, absorbed)
      else RenamedSoFar(was, now - {q}, seen, order, i + 1, kept, absorbed)
  {
    hide RenamedPair, StillAsks, Asked, QueueSoFar;
    var q := order[i];
    Split(order, i);
    AskedBefore(was, order, i, kept, absorbed);
    var pair := RenamedPair(was[q], kept, absorbed);
    assert q in MergedReviews(was, kept, absorbed) <==> pair.lower != pair.higher && pair !in seen;
    QueueOneMore(was, now, MergedReviews(was, kept, absorbed), order[..i], q, order[i + 1..]);
    SeenOneMore(was, seen, order[..i], q, kept, absorbed);
    assert pair in seen ==> seen + {pair} == seen;
  }

  lemma AllRenamed(was: map<ReviewId, PendingReview>, now: map<ReviewId, PendingReview>, seen: set<Settled>,
                   order: seq<ReviewId>, kept: StableId, absorbed: StableId)
    requires forall q :: q in order <==> q in was
    requires RenamedSoFar(was, now, seen, order, |order|, kept, absorbed)
    ensures now == MergedReviews(was, kept, absorbed)
  {
    hide StillAsks, RenamedPair;
    assert order[..|order|] == order;
  }

  lemma NothingRenamed(was: map<ReviewId, PendingReview>, order: seq<ReviewId>, kept: StableId, absorbed: StableId)
    requires forall q :: q in order <==> q in was
    ensures RenamedSoFar(was, was, {}, order, 0, kept, absorbed)
  {
  }

  lemma OneMoreRejection(rejected: set<Settled>, todo: set<Settled>, pair: Settled, kept: StableId, absorbed: StableId)
    requires pair in todo && todo <= rejected
    ensures var x, y := Renamed(pair.lower, absorbed, kept), Renamed(pair.higher, absorbed, kept);
      MergedRejections(rejected - (todo - {pair}), kept, absorbed) ==
      MergedRejections(rejected - todo, kept, absorbed) + (if x != y then {PairOf(x, y)} else {})
  {
    hide Renamed, PairOf;
    assert rejected - (todo - {pair}) == (rejected - todo) + {pair};
  }

  // ----- merging: what each step finds

  lemma BothKnown(rs: Ruleset, s: State, id: ReviewId)
    requires Sound(rs, s) && id in s.review
    ensures var pair := PairOf(s.review[id].a, s.review[id].b);
      pair.lower in s.store.entities && pair.higher in s.store.entities
  {
  }

  lemma PartKnows(store: MemoryStore, kept: StableId, absorbed: StableId, todo: set<string>)
    requires kept in store.entities && absorbed in store.entities && kept != absorbed
    ensures kept in PartlyMerged(store, kept, absorbed, todo).entities
    ensures absorbed in PartlyMerged(store, kept, absorbed, todo).entities
  {
  }

  lemma NothingCopied(store: MemoryStore, id: StableId, attribute: string)
    requires id in store.entities
    ensures Copied(store, id, attribute, []) == store
  {
  }

  lemma CopiedLeaves(store: MemoryStore, kept: StableId, absorbed: StableId, attribute: string, versions: seq<Version>)
    requires kept in store.entities && absorbed in store.entities && kept != absorbed
    ensures var copied := Copied(store, kept, attribute, versions);
      absorbed in copied.entities && copied.entities[absorbed] == store.entities[absorbed]
  {
  }

  // ----- rebuilding the index

  /** One more row: refused exactly when it names no assertion or the index would refuse it. */
  lemma OneMoreRow(s: State, dim: nat, metric: Metric, rows: seq<Row>, i: nat)
    requires i < |rows| && RowsAccepted(s, VectorIndex(dim, metric, map[]), rows[..i])
    ensures var empty, so := VectorIndex(dim, metric, map[]), VectorIndex(dim, metric, RowsOf(rows[..i]));
      && so.Check(rows[i].vector) == empty.Check(rows[i].vector)
      && if rows[i].id in s.assertions && empty.Check(rows[i].vector).None?
         then RowsAccepted(s, empty, rows[..i + 1])
           && so.Insert(rows[i].id, rows[i].vector) == Ok(VectorIndex(dim, metric, RowsOf(rows[..i + 1])))
         else !Rebuildable(s, dim, metric, rows)
  {
    assert rows[i] in rows;
    assert rows[..i + 1] == rows[..i] + [rows[i]];
    assert rows[..i + 1][..i] == rows[..i];
  }

  /** Rows only for known assertions cover them all exactly when there are as many. */
  lemma AllRows(s: State, dim: nat, metric: Metric, rows: seq<Row>)
    requires RowsAccepted(s, VectorIndex(dim, metric, map[]), rows)
    ensures |RowsOf(rows)| == |s.assertions| <==> Rebuildable(s, dim, metric, rows)
  {
    var covered := RowsOf(rows);
    assert covered.Keys <= s.assertions.Keys by {
      forall id | id in covered ensures id in s.assertions {
        assert Row(id, covered[id]) in rows;
      }
    }
    assert |covered.Keys| == |covered| && |s.assertions.Keys| == |s.assertions|;
    if |covered| == |s.assertions| { SubsetOfSameSize(covered.Keys, s.assertions.Keys); }
  }

  // ----- the blocking map

  lemma NothingStruck(blocks: Blocks, entity: StableId)
    ensures Struck(blocks, entity, blocks.Keys) == blocks
  {
  }

  lemma OneMoreStruck(blocks: Blocks, entity: StableId, todo: set<string>, key: string)
    requires key in todo && todo <= blocks.Keys
    ensures key in Struck(blocks, entity, todo)
    ensures var so := Struck(blocks, entity, todo);
      Struck(blocks, entity, todo - {key}) == so[key := Filter(Other(entity), so[key])]
  {
    hide Filter;
  }

  lemma AllStruck(blocks: Blocks, entity: StableId)
    ensures var struck := Struck(blocks, entity, {});
      (map k | k in struck && struck[k] != [] :: struck[k]) == Unkeyed(blocks, entity)
  {
    hide Filter;
  }

  lemma BlocksFromNothing(rs: Ruleset, identity: map<StableId, Record>)
    ensures BlocksFrom(rs, identity, []) == map[]
  {
  }

  lemma BlocksFromOneMore(rs: Ruleset, identity: map<StableId, Record>, order: seq<StableId>, i: nat)
    requires i < |order| && forall id :: id in order ==> id in identity
    ensures order[i] in identity
    ensures forall id :: id in order[..i + 1] ==> id in identity
    ensures BlocksFrom(rs, identity, order[..i + 1]) ==
      Keyed(BlocksFrom(rs, identity, order[..i]), order[i], rs.KeysFor(identity[order[i]]))
  {
    hide Keyed;
    assert order[i] in order;
    assert order[..i + 1][..i] == order[..i];
  }
}
