/**
 Deterministic k-hop traversal over the store's edges, breadth-first and level by level, with
 a hop limit and a budget.
 */
module Graph {
  import opened Core
  import opened Ordering
  import opened Store

  newtype u8 = n: int | 0 <= n < 256

  datatype Direction = Out | In | Both

  datatype Walk = Walk(
    seeds: seq<StableId>,
    hops: u8,
    budget: nat,
    direction: Direction,
    predicates: Option<seq<string>>,
    validT: Timestamp,
    txT: Timestamp)
  {
    predicate Wants(name: string) {
      predicates.Some? ==> name in predicates.value
    }
  }

  datatype Reached = Reached(entity: StableId, distance: u8)

  datatype Neighborhood = Neighborhood(reached: seq<Reached>, truncated: bool)

  /** An edge the walk may cross: wanted, and in force on both axes. */
  predicate Crosses(store: MemoryStore, walk: Walk, t: Triple) {
    t in store.edges && walk.Wants(t.predicate_) && InForce(store.edges[t], walk.validT, walk.txT)
  }

  function Successors(store: MemoryStore, walk: Walk, id: StableId): set<StableId> {
    (if walk.direction != In then
       set t | t in store.edges && t.subject == id && Crosses(store, walk, t) :: t.object_
     else {})
    +
    (if walk.direction != Out then
       set t | t in store.edges && t.object_ == id && Crosses(store, walk, t) :: t.subject
     else {})
  }

  function Seeds(store: MemoryStore, walk: Walk): set<StableId> {
    set id | id in walk.seeds && id in store.entities
  }

  // ----- what a walk means: paths

  /** An edge in the store, of a predicate asked for, in force at the instant asked about as known then. */
  ghost predicate Joined(store: MemoryStore, walk: Walk, subject: StableId, name: string, object_: StableId) {
    && Triple(subject, name, object_) in store.edges
    && (walk.predicates.None? || name in walk.predicates.value)
    && InForce(store.edges[Triple(subject, name, object_)], walk.validT, walk.txT)
  }

  /** Outwards an edge is crossed from subject to object, inwards from object to subject. */
  ghost predicate OneHop(store: MemoryStore, walk: Walk, x: StableId, y: StableId) {
    match walk.direction
    case Out => exists name :: Joined(store, walk, x, name, y)
    case In => exists name :: Joined(store, walk, y, name, x)
    case Both => exists name :: Joined(store, walk, x, name, y) || Joined(store, walk, y, name, x)
  }

  lemma SuccessorsAreOneHop(store: MemoryStore, walk: Walk, x: StableId)
    ensures forall y :: y in Successors(store, walk, x) <==> OneHop(store, walk, x, y)
  {
    forall y ensures y in Successors(store, walk, x) <==> OneHop(store, walk, x, y) {
      hide InForce;
      forall name ensures Joined(store, walk, x, name, y) <==> Crosses(store, walk, Triple(x, name, y)) {}
      forall name ensures Joined(store, walk, y, name, x) <==> Crosses(store, walk, Triple(y, name, x)) {}
      hide Joined, Crosses;
      if y in Successors(store, walk, x) {
        SomeEdgeJoins(store, walk, x, y);
      }
    }
  }

  lemma SomeEdgeJoins(store: MemoryStore, walk: Walk, x: StableId, y: StableId)
    requires y in Successors(store, walk, x)
    ensures OneHop(store, walk, x, y)
  {
    hide InForce;
    if t :| t in store.edges && t.subject == x && t.object_ == y && Crosses(store, walk, t) && walk.direction != In {
      assert t == Triple(x, t.predicate_, y);
      assert Joined(store, walk, x, t.predicate_, y);
    } else {
      var t :| t in store.edges && t.object_ == x && t.subject == y && Crosses(store, walk, t);
      assert t == Triple(y, t.predicate_, x);
      assert Joined(store, walk, y, t.predicate_, x);
    }
  }

  ghost predicate IsPath(store: MemoryStore, walk: Walk, p: seq<StableId>) {
    && p != []
    && p[0] in walk.seeds && p[0] in store.entities
    && forall i, j {:trigger p[i], p[j]} :: 0 <= i && j == i + 1 && j < |p| ==>
         OneHop(store, walk, p[i], p[j])
  }

  ghost predicate PathTo(store: MemoryStore, walk: Walk, p: seq<StableId>, id: StableId) {
    IsPath(store, walk, p) && p[|p| - 1] == id
  }

  /** The length, in hops, of a shortest path from an existing seed. */
  ghost predicate IsDistance(store: MemoryStore, walk: Walk, id: StableId, d: nat) {
    && (exists p :: PathTo(store, walk, p, id) && |p| == d + 1)
    && (forall p :: PathTo(store, walk, p, id) ==> |p| >= d + 1)
  }

  // ----- levels

  function Onward(store: MemoryStore, walk: Walk, from: set<StableId>): set<StableId> {
    set x, y | x in from && y in Successors(store, walk, x) :: y
  }

  function Ball(store: MemoryStore, walk: Walk, n: nat): set<StableId> {
    if n == 0 then Seeds(store, walk)
    else Ball(store, walk, n - 1) + Onward(store, walk, Ball(store, walk, n - 1))
  }

  function Before(store: MemoryStore, walk: Walk, n: nat): set<StableId> {
    if n == 0 then {} else Ball(store, walk, n - 1)
  }

  function Level(store: MemoryStore, walk: Walk, n: nat): set<StableId> {
    Ball(store, walk, n) - Before(store, walk, n)
  }

  function Tagged(ids: seq<StableId>, d: u8): (r: seq<Reached>)
    ensures |r| == |ids|
    ensures forall i :: 0 <= i < |ids| ==> r[i] == Reached(ids[i], d)
  {
    seq(|ids|, i requires 0 <= i < |ids| => Reached(ids[i], d))
  }

  /** Everything nearer than `n` hops, by (distance, id). */
  function ListedBefore(store: MemoryStore, walk: Walk, n: nat): seq<Reached>
    requires n <= 256
  {
    if n == 0 then []
    else ListedBefore(store, walk, n - 1) + Tagged(InOrder(Level(store, walk, n - 1)), (n - 1) as u8)
  }

  function Listing(store: MemoryStore, walk: Walk): seq<Reached> {
    ListedBefore(store, walk, walk.hops as nat + 1)
  }

  lemma {:induction false} BallGrows(store: MemoryStore, walk: Walk, m: nat, n: nat)
    requires m <= n
    ensures Ball(store, walk, m) <= Ball(store, walk, n)
    decreases n
  {
    if m < n { BallGrows(store, walk, m, n - 1); }
  }

  /** What lies past a level is exactly where that level's own edges lead, less what is known. */
  lemma NextLevel(store: MemoryStore, walk: Walk, n: nat)
    ensures Level(store, walk, n + 1) ==
      Onward(store, walk, Level(store, walk, n)) - Ball(store, walk, n)
  {
    if n > 0 {
      forall y | y in Onward(store, walk, Before(store, walk, n))
        ensures y in Ball(store, walk, n)
      {}
      assert Before(store, walk, n) <= Ball(store, walk, n);
    }
  }

  lemma {:induction false} ListedIsPrefix(store: MemoryStore, walk: Walk, m: nat, n: nat)
    requires m <= n <= 256
    ensures ListedBefore(store, walk, m) <= ListedBefore(store, walk, n)
    decreases n
  {
    hide Level, Tagged, InOrder;
    if m < n { ListedIsPrefix(store, walk, m, n - 1); }
  }

  /** Once a level is empty so is every later one. */
  lemma {:induction false} EmptyLevelEnds(store: MemoryStore, walk: Walk, m: nat, n: nat)
    requires m <= n <= 256 && Level(store, walk, m) == {}
    ensures ListedBefore(store, walk, n) == ListedBefore(store, walk, m)
    ensures Level(store, walk, n) == {}
    decreases n
  {
    hide Level, Onward, InOrder, Tagged;
    if m < n {
      EmptyLevelEnds(store, walk, m, n - 1);
      NextLevel(store, walk, n - 1);
      NothingOnward(store, walk);
    }
  }

  lemma NothingOnward(store: MemoryStore, walk: Walk)
    ensures Onward(store, walk, {}) == {}
  {
  }

  lemma Start(store: MemoryStore, walk: Walk)
    ensures ListedBefore(store, walk, 0) == [] && Before(store, walk, 0) == {}
    ensures Level(store, walk, 0) == Seeds(store, walk)
  {
  }

  lemma OneLevelMore(store: MemoryStore, walk: Walk, d: u8)
    ensures ListedBefore(store, walk, d as nat + 1) ==
      ListedBefore(store, walk, d as nat) + Tagged(InOrder(Level(store, walk, d as nat)), d)
    ensures Before(store, walk, d as nat + 1) == Ball(store, walk, d as nat)
  {
    hide Level, Tagged, InOrder;
  }

  lemma BallSplits(store: MemoryStore, walk: Walk, n: nat)
    ensures Ball(store, walk, n) == Before(store, walk, n) + Level(store, walk, n)
    ensures |Ball(store, walk, n)| == |Before(store, walk, n)| + |Level(store, walk, n)|
  {
    hide Onward;
    assert Before(store, walk, n) <= Ball(store, walk, n);
    assert Before(store, walk, n) !! Level(store, walk, n);
  }

  // ----- the code

  method Neighbours(store: MemoryStore, id: StableId, walk: Walk) returns (out: set<StableId>)
    ensures out == Successors(store, walk, id)
  {
    out := {};
    if walk.direction == Out || walk.direction == Both {
      out := Outward(store, id, walk);
    }
    if walk.direction == In || walk.direction == Both {
      var inward := Inward(store, id, walk);
      out := out + inward;
    }
  }

  method Outward(store: MemoryStore, id: StableId, walk: Walk) returns (out: set<StableId>)
    ensures out == set t | t in store.edges && t.subject == id && Crosses(store, walk, t) :: t.object_
  {
    hide Crosses;
    out := {};
    var rest := store.edges.Keys;
    while rest != {}
      invariant rest <= store.edges.Keys
      invariant forall o :: o in out ==>
        exists t :: t in store.edges && t.subject == id && Crosses(store, walk, t) && t.object_ == o
      invariant forall t :: t in store.edges.Keys - rest && t.subject == id && Crosses(store, walk, t) ==>
        t.object_ in out
    {
      var t :| t in rest;
      if t.subject == id && Crosses(store, walk, t) {
        out := out + {t.object_};
      }
      rest := rest - {t};
    }
  }

  method Inward(store: MemoryStore, id: StableId, walk: Walk) returns (out: set<StableId>)
    ensures out == set t | t in store.edges && t.object_ == id && Crosses(store, walk, t) :: t.subject
  {
    hide Crosses;
    out := {};
    var rest := store.edges.Keys;
    while rest != {}
      invariant rest <= store.edges.Keys
      invariant forall s :: s in out ==>
        exists t :: t in store.edges && t.object_ == id && Crosses(store, walk, t) && t.subject == s
      invariant forall t :: t in store.edges.Keys - rest && t.object_ == id && Crosses(store, walk, t) ==>
        t.subject in out
    {
      var t :| t in rest;
      if t.object_ == id && Crosses(store, walk, t) {
        out := out + {t.subject};
      }
      rest := rest - {t};
    }
  }

  function NotIn(known: set<StableId>): StableId -> bool {
    (id: StableId) => id !in known
  }

  lemma FreshOrder(frontier: set<StableId>, known: set<StableId>)
    ensures Filter(NotIn(known), InOrder(frontier)) == InOrder(frontier - known)
  {
    FilterAscends(NotIn(known), InOrder(frontier));
    AscendingIsUnique(Filter(NotIn(known), InOrder(frontier)), InOrder(frontier - known));
  }

  /**
   Every entity reachable within the hop limit, nearest first, cut at the budget: exactly the
   first `min(budget, N)` of the N there are, and `truncated` exactly when N exceeds it.
   */
  method NeighborhoodOf(store: MemoryStore, walk: Walk) returns (n: Neighborhood)
    ensures var all := Listing(store, walk);
      && n.reached == all[..if walk.budget < |all| then walk.budget else |all|]
      && (n.truncated <==> |all| > walk.budget)
  {
    hide Successors, Ball, Level, Before, ListedBefore;
    var reached: seq<Reached> := [];
    var seen: set<StableId> := {};
    var truncated := false;
    var frontier := Seeds(store, walk);
    var distance: u8 := 0;
    Start(store, walk);
    while frontier != {}
      invariant distance <= walk.hops && !truncated
      invariant reached == ListedBefore(store, walk, distance as nat) && |reached| <= walk.budget
      invariant seen == Before(store, walk, distance as nat)
      invariant frontier - seen == Level(store, walk, distance as nat)
      decreases walk.hops - distance
    {
      var level, seen', next, cut := ExpandLevel(store, walk, distance, frontier, seen, reached);
      ListedIsPrefix(store, walk, distance as nat + 1, walk.hops as nat + 1);
      reached, seen := level, seen';
      if cut {
        truncated := true;
        break;
      }
      if distance == walk.hops {
        break;
      }
      NextLevel(store, walk, distance as nat);
      OneLevelMore(store, walk, distance);
      distance := distance + 1;
      frontier := next;
    }
    if frontier == {} {
      EmptyLevelEnds(store, walk, distance as nat, walk.hops as nat + 1);
    }
    n := Neighborhood(reached, truncated);
  }

  /** One turn of the outer loop: visit the frontier in ascending order until the budget stops it. */
  method ExpandLevel(store: MemoryStore, walk: Walk, distance: u8, frontier: set<StableId>,
                     before: set<StableId>, listed: seq<Reached>)
    returns (reached: seq<Reached>, seen: set<StableId>, next: set<StableId>, cut: bool)
    requires distance <= walk.hops
    requires before == Before(store, walk, distance as nat)
    requires frontier - before == Level(store, walk, distance as nat)
    requires listed == ListedBefore(store, walk, distance as nat) && |listed| <= walk.budget
    ensures var all := ListedBefore(store, walk, distance as nat + 1);
      if cut then |all| > walk.budget && reached == all[..walk.budget]
      else
        && reached == all && |all| <= walk.budget
        && seen == Ball(store, walk, distance as nat)
        && (distance < walk.hops ==>
              next - seen == Onward(store, walk, Level(store, walk, distance as nat)) - seen)
  {
    hide Successors, InOrder, Filter, ListedBefore, Level, Before, Ball, Onward, Gathered, Tagged;
    FreshOrder(frontier, before);
    OneLevelMore(store, walk, distance);
    reached, seen, next, cut := VisitAll(store, walk, distance, InOrder(frontier), before, listed);
    if !cut {
      assert Members(InOrder(frontier)) == frontier;
      LevelDone(store, walk, distance as nat, frontier, before, next);
    }
  }

  method VisitAll(store: MemoryStore, walk: Walk, distance: u8, order: seq<StableId>,
                  before: set<StableId>, listed: seq<Reached>)
    returns (reached: seq<Reached>, seen: set<StableId>, next: set<StableId>, cut: bool)
    requires Ascending(order) && |listed| <= walk.budget
    ensures var all := listed + Tagged(Filter(NotIn(before), order), distance);
      if cut then |all| > walk.budget && reached == all[..walk.budget]
      else
        && reached == all && |all| <= walk.budget
        && seen == before + Members(order)
        && (distance < walk.hops ==> Gathered(store, walk, Members(order) - before, next, seen))
  {
    hide Successors, Filter, Onward, Gathered, Members, Tagged, Ascending;
    NothingGathered(store, walk, before);
    NothingTagged(NotIn(before), order, distance);
    ghost var keep := NotIn(before);
    ghost var visited: set<StableId> := {};
    assert visited - before == {};
    reached, seen, next, cut := listed, before, {}, false;
    for i := 0 to |order|
      invariant !cut && |reached| <= walk.budget
      invariant reached == listed + Tagged(Filter(keep, order[..i]), distance)
      invariant visited == Members(order[..i]) && seen == before + visited
      invariant distance < walk.hops ==> Gathered(store, walk, visited - before, next, seen)
    {
      OneMoreMember(order, i);
      TaggedMore(keep, order[..i], order[i], distance);
      reached, seen, next, cut := Visit(store, walk, distance, order[i], before, visited, reached, seen, next);
      visited := visited + {order[i]};
      if cut {
        TaggedPrefix(listed, keep, order, i, distance);
        break;
      }
    }
  }

  /** One id of the frontier: skipped if already seen, else listed if the budget allows. */
  method Visit(store: MemoryStore, walk: Walk, distance: u8, id: StableId,
               ghost before: set<StableId>, ghost visited: set<StableId>,
               reached: seq<Reached>, seen: set<StableId>, next: set<StableId>)
    returns (reached': seq<Reached>, seen': set<StableId>, next': set<StableId>, cut: bool)
    requires seen == before + visited && id !in visited && |reached| <= walk.budget
    requires distance < walk.hops ==> Gathered(store, walk, visited - before, next, seen)
    ensures cut <==> id !in before && |reached| == walk.budget
    ensures cut ==> reached' == reached
    ensures !cut ==>
      && reached' == reached + (if id in before then [] else [Reached(id, distance)])
      && |reached'| <= walk.budget
      && seen' == seen + {id}
      && (distance < walk.hops ==> Gathered(store, walk, visited + {id} - before, next', seen'))
  {
    hide Successors, Onward, Gathered;
    reached', seen', next', cut := reached, seen, next, false;
    if id in seen {
      assert visited + {id} - before == visited - before;
      assert seen + {id} == seen;
      return;
    }
    seen' := seen + {id};
    if |reached| >= walk.budget {
      cut := true;
      return;
    }
    reached' := reached + [Reached(id, distance)];
    if distance < walk.hops {
      var around := Neighbours(store, id, walk);
      GatherMore(store, walk, visited - before, next, seen, id);
      assert visited + {id} - before == visited - before + {id};
      next' := next + (around - seen');
    }
  }

  lemma LevelDone(store: MemoryStore, walk: Walk, d: nat, frontier: set<StableId>, before: set<StableId>,
                  next: set<StableId>)
    requires before == Before(store, walk, d) && frontier - before == Level(store, walk, d)
    ensures before + frontier == Ball(store, walk, d)
    ensures Gathered(store, walk, frontier - before, next, before + frontier) ==>
      next - (before + frontier) == Onward(store, walk, Level(store, walk, d)) - (before + frontier)
  {
    hide Onward, Level;
    BallSplits(store, walk, d);
  }

  function Members(s: seq<StableId>): set<StableId> {
    set x | x in s
  }

  /** `next` holds where the visited ids lead, at least the part not yet seen. */
  ghost predicate Gathered(store: MemoryStore, walk: Walk, visited: set<StableId>, next: set<StableId>,
                           seen: set<StableId>) {
    next <= Onward(store, walk, visited) <= next + seen
  }

  lemma GatherMore(store: MemoryStore, walk: Walk, visited: set<StableId>, next: set<StableId>, seen: set<StableId>,
                   id: StableId)
    requires Gathered(store, walk, visited, next, seen)
    ensures Gathered(store, walk, visited + {id},
                     next + (Successors(store, walk, id) - (seen + {id})), seen + {id})
  {
    hide Successors;
    assert Onward(store, walk, visited + {id}) == Onward(store, walk, visited) + Successors(store, walk, id);
  }

  lemma NothingGathered(store: MemoryStore, walk: Walk, seen: set<StableId>)
    ensures Gathered(store, walk, {}, {}, seen)
  {
    assert Onward(store, walk, {}) == {};
  }

  /** An unvisited id at `i` means the whole level lists more than its first `i` ids did. */
  lemma TaggedPrefix(listed: seq<Reached>, keep: nat -> bool, order: seq<nat>, i: nat, d: u8)
    requires i < |order| && keep(order[i])
    ensures var part, whole := listed + Tagged(Filter(keep, order[..i]), d), listed + Tagged(Filter(keep, order), d);
      |part| < |whole| && part == whole[..|part|]
  {
    hide Filter;
    assert order == order[..i] + ([order[i]] + order[i + 1..]);
    FilterAppend(keep, order[..i], [order[i]] + order[i + 1..]);
    FilterAppend(keep, [order[i]], order[i + 1..]);
    FilterOneMore(keep, [], order[i]);
    assert [] + [order[i]] == [order[i]];
  }

  lemma TaggedMore(keep: nat -> bool, s: seq<nat>, x: nat, d: u8)
    ensures Tagged(Filter(keep, s + [x]), d) ==
      Tagged(Filter(keep, s), d) + (if keep(x) then [Reached(x, d)] else [])
  {
    hide Filter;
    FilterOneMore(keep, s, x);
  }

  lemma OneMoreMember(order: seq<StableId>, i: nat)
    requires Ascending(order) && i < |order|
    ensures order[..i + 1] == order[..i] + [order[i]]
    ensures Members(order[..i + 1]) == Members(order[..i]) + {order[i]}
    ensures order[i] !in Members(order[..i])
  {
  }

  lemma NothingTagged(keep: nat -> bool, order: seq<nat>, d: u8)
    ensures Members(order[..0]) == {}
    ensures Tagged(Filter(keep, order[..0]), d) == []
    ensures order[..|order|] == order
    ensures forall x :: x in Members(order) <==> x in order
  {
  }

  // ----- what the listing lists

  lemma {:induction false} BallHasPaths(store: MemoryStore, walk: Walk, n: nat, id: StableId)
    returns (p: seq<StableId>)
    requires id in Ball(store, walk, n)
    ensures PathTo(store, walk, p, id) && |p| <= n + 1
  {
    hide Successors, OneHop;
    if n == 0 {
      p := [id];
    } else if id in Ball(store, walk, n - 1) {
      p := BallHasPaths(store, walk, n - 1, id);
    } else {
      var x :| x in Ball(store, walk, n - 1) && id in Successors(store, walk, x);
      var q := BallHasPaths(store, walk, n - 1, x);
      SuccessorsAreOneHop(store, walk, x);
      p := q + [id];
    }
  }

  lemma {:induction false} PathsStayInBall(store: MemoryStore, walk: Walk, p: seq<StableId>)
    requires IsPath(store, walk, p)
    ensures p[|p| - 1] in Ball(store, walk, |p| - 1)
  {
    hide Successors, OneHop;
    if |p| > 1 {
      var q := p[..|p| - 1];
      PathsStayInBall(store, walk, q);
      SuccessorsAreOneHop(store, walk, p[|p| - 2]);
      assert p[|p| - 1] in Successors(store, walk, p[|p| - 2]);
    }
  }

  /** A level is the set of entities at exactly that distance. */
  lemma LevelIsDistance(store: MemoryStore, walk: Walk, id: StableId, d: nat)
    ensures id in Level(store, walk, d) <==> IsDistance(store, walk, id, d)
  {
    hide Successors, OneHop;
    if id in Level(store, walk, d) {
      var p := BallHasPaths(store, walk, d, id);
      forall q | PathTo(store, walk, q, id) ensures |q| >= d + 1 {
        PathsStayInBall(store, walk, q);
        if |q| - 1 < d { BallGrows(store, walk, |q| - 1, d - 1); }
      }
      assert |p| == d + 1;
    }
    if IsDistance(store, walk, id, d) {
      var p :| PathTo(store, walk, p, id) && |p| == d + 1;
      PathsStayInBall(store, walk, p);
      if d > 0 && id in Ball(store, walk, d - 1) {
        var q := BallHasPaths(store, walk, d - 1, id);
      }
    }
  }

  /** Nearer, or as near with a lower id. */
  predicate Nearer(a: Reached, b: Reached) {
    a.distance < b.distance || (a.distance == b.distance && a.entity < b.entity)
  }

  ghost predicate ByDistanceThenId(listed: seq<Reached>) {
    forall i, j :: 0 <= i < j < |listed| ==> Nearer(listed[i], listed[j])
  }

  /** What a prefix of the listing holds: everything nearer than `n`, nearest first. */
  ghost predicate ListsNearer(store: MemoryStore, walk: Walk, listed: seq<Reached>, n: nat) {
    && ByDistanceThenId(listed)
    && forall r :: r in listed <==> r.distance as nat < n && r.entity in Level(store, walk, r.distance as nat)
  }

  lemma TaggedMembers(ids: seq<nat>, d: u8)
    ensures forall r :: r in Tagged(ids, d) <==> r.distance == d && r.entity in ids
  {
    forall r ensures r in Tagged(ids, d) <==> r.distance == d && r.entity in ids {
      if r.distance == d && r.entity in ids {
        var k :| 0 <= k < |ids| && ids[k] == r.entity;
        assert Tagged(ids, d)[k] == r;
      }
    }
  }

  lemma NextDistance(store: MemoryStore, walk: Walk, earlier: seq<Reached>, ids: seq<nat>, n: nat)
    requires n < 256 && ListsNearer(store, walk, earlier, n)
    requires Ascending(ids) && forall id :: id in ids <==> id in Level(store, walk, n)
    ensures ListsNearer(store, walk, earlier + Tagged(ids, n as u8), n + 1)
  {
    hide Level, Tagged;
    TaggedMembers(ids, n as u8);
    forall i | 0 <= i < |earlier| ensures earlier[i].distance as nat < n {
      assert earlier[i] in earlier;
    }
  }

  lemma {:induction false} ListedShape(store: MemoryStore, walk: Walk, n: nat)
    requires n <= 256
    ensures ListsNearer(store, walk, ListedBefore(store, walk, n), n)
  {
    hide Level, InOrder, ListsNearer;
    if n > 0 {
      ListedShape(store, walk, n - 1);
      NextDistance(store, walk, ListedBefore(store, walk, n - 1), InOrder(Level(store, walk, n - 1)), n - 1);
    } else {
      NothingNearer(store, walk);
    }
  }

  lemma NothingNearer(store: MemoryStore, walk: Walk)
    ensures ListsNearer(store, walk, [], 0)
  {
  }

  /**
   The full listing, before the budget: each entity within the hop limit exactly once, at its
   true shortest distance, ordered by distance and then by id.
   */
  lemma ListingIsShortestPaths(store: MemoryStore, walk: Walk)
    ensures ByDistanceThenId(Listing(store, walk))
    ensures forall r :: r in Listing(store, walk) <==>
      r.distance <= walk.hops && IsDistance(store, walk, r.entity, r.distance as nat)
    ensures forall i, j :: 0 <= i < j < |Listing(store, walk)| ==>
      Listing(store, walk)[i].entity != Listing(store, walk)[j].entity
    ensures |Listing(store, walk)| == |Ball(store, walk, walk.hops as nat)|
  {
    hide Successors, Level, IsDistance, Ball, ListedBefore;
    var n := walk.hops as nat + 1;
    ListedShape(store, walk, n);
    var all := Listing(store, walk);
    forall r: Reached
      ensures r.entity in Level(store, walk, r.distance as nat) <==>
        IsDistance(store, walk, r.entity, r.distance as nat)
    {
      LevelIsDistance(store, walk, r.entity, r.distance as nat);
    }
    ListedSize(store, walk, n);
    hide ByDistanceThenId;
    ListedOnce(store, walk, all);
  }

  /** In order and each at its distance, no entity is listed twice. */
  lemma ListedOnce(store: MemoryStore, walk: Walk, all: seq<Reached>)
    requires ByDistanceThenId(all)
    requires forall r :: r in all ==> IsDistance(store, walk, r.entity, r.distance as nat)
    ensures forall i, j :: 0 <= i < j < |all| ==> all[i].entity != all[j].entity
  {
    hide IsDistance;
    forall i, j | 0 <= i < j < |all| ensures all[i].entity != all[j].entity {
      assert all[i] in all && all[j] in all;
      OneDistance(store, walk, all[i].entity, all[i].distance as nat, all[j].distance as nat);
    }
  }

  lemma OneDistance(store: MemoryStore, walk: Walk, id: StableId, c: nat, d: nat)
    ensures IsDistance(store, walk, id, c) && IsDistance(store, walk, id, d) ==> c == d
  {
  }

  lemma {:induction false} ListedSize(store: MemoryStore, walk: Walk, n: nat)
    requires 1 <= n <= 256
    ensures |ListedBefore(store, walk, n)| == |Ball(store, walk, n - 1)|
  {
    hide Ball, Level, Tagged, InOrder, ListedBefore;
    OneLevelMore(store, walk, (n - 1) as u8);
    BallSplits(store, walk, n - 1);
    if n == 1 {
      Start(store, walk);
    } else {
      ListedSize(store, walk, n - 1);
    }
  }

  /** What a walk returns, in terms of paths alone. */
  lemma WalkReturnsNearest(store: MemoryStore, walk: Walk, n: Neighborhood)
    requires var all := Listing(store, walk);
      && n.reached == all[..if walk.budget < |all| then walk.budget else |all|]
      && (n.truncated <==> |all| > walk.budget)
    ensures forall r :: r in n.reached ==>
      r.distance <= walk.hops && IsDistance(store, walk, r.entity, r.distance as nat)
    ensures ByDistanceThenId(n.reached) && |n.reached| <= walk.budget
    ensures !n.truncated <==>
      forall id, d: u8 :: d <= walk.hops && IsDistance(store, walk, id, d as nat) ==> Reached(id, d) in n.reached
    ensures forall id, d: u8, r ::
      d <= walk.hops && IsDistance(store, walk, id, d as nat) && r in n.reached && Reached(id, d) !in n.reached ==>
      Nearer(r, Reached(id, d))
  {
    hide IsDistance, ListedBefore, ByDistanceThenId;
    ListingIsShortestPaths(store, walk);
    var all := Listing(store, walk);
    PrefixOrdered(all, n.reached);
    forall r | r in n.reached ensures r in all {}
    forall id, d: u8 | d <= walk.hops && IsDistance(store, walk, id, d as nat)
      ensures Reached(id, d) in all
    {
      var r := Reached(id, d);
      assert r.distance <= walk.hops && IsDistance(store, walk, r.entity, r.distance as nat);
    }
    if n.truncated {
      CutIsLeftOut(all, walk.budget);
      var cut := all[walk.budget];
      assert cut in all;
      assert Reached(cut.entity, cut.distance) !in n.reached;
    } else {
      assert n.reached == all;
    }
    forall id, d: u8, r |
      d <= walk.hops && IsDistance(store, walk, id, d as nat) && r in n.reached && Reached(id, d) !in n.reached
      ensures Nearer(r, Reached(id, d))
    {
      LeftOutIsFarther(all, n.reached, r, Reached(id, d));
    }
  }

  lemma PrefixOrdered(all: seq<Reached>, listed: seq<Reached>)
    requires ByDistanceThenId(all) && listed <= all
    ensures ByDistanceThenId(listed)
  {
  }

  lemma CutIsLeftOut(all: seq<Reached>, budget: nat)
    requires ByDistanceThenId(all) && budget < |all|
    ensures all[budget] !in all[..budget]
  {
  }

  lemma LeftOutIsFarther(all: seq<Reached>, listed: seq<Reached>, kept: Reached, omitted: Reached)
    requires ByDistanceThenId(all) && listed <= all
    requires kept in listed && omitted in all && omitted !in listed
    ensures Nearer(kept, omitted)
  {
    var rest := all[|listed|..];
    assert all == listed + rest;
    var i :| 0 <= i < |listed| && listed[i] == kept;
    var j :| 0 <= j < |rest| && rest[j] == omitted;
    assert Nearer(all[i], all[|listed| + j]);
  }
}
