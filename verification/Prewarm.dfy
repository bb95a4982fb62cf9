/**
 The pre-fetch: worker threads claiming prompts off one atomic counter and filling a shared cache.

 A worker is a program counter; a run is any sequence of (worker, reply) pairs, so every
 interleaving of the atomic steps is a schedule and the provider may answer anything, each time.
 */
module Prewarm {
  import opened Core
  import opened Ordering

  type Reply = Result<string, string>

  /** How one prompt went. */
  datatype Ending = Hit | Fetched(answer: string) | Failed(error: string)

  /** Where a worker is with the index it holds: each constructor is the atomic step it takes next. */
  datatype Task =
    | Looking
    | CountingHit
    | CountingMiss
    | Calling
    | Inserting(answer: string)
    | CountingFailure(error: string)
    | Blaming(blamed: string)
    | Finishing(ending: Ending)

  datatype Worker = Claiming | Working(i: nat, task: Task) | Stopped

  datatype World = World(prompts: seq<string>, key: string -> nat, initial: map<nat, string>)

  /** `claims` and `ended` are history: what each claim returned, and how each index finished. */
  datatype State = State(
    next: nat, done: nat, failed: nat, firstError: Option<string>,
    hits: nat, misses: nat, cache: map<nat, string>,
    workers: seq<Worker>, claims: seq<nat>, ended: map<nat, Ending>)

  function Start(world: World, workers: nat): State {
    State.State(0, 0, 0, None, 0, 0, world.initial, seq(workers, i => Claiming), [], map[])
  }

  function KeyOf(world: World, i: nat): nat
    requires i < |world.prompts|
  {
    world.key(world.prompts[i])
  }

  function Put(s: State, w: nat, worker: Worker): State
    requires w < |s.workers|
  {
    s.(workers := s.workers[w := worker])
  }

  predicate InRange(world: World, s: State) {
    forall w :: 0 <= w < |s.workers| && s.workers[w].Working? ==> s.workers[w].i < |world.prompts|
  }

  /** Take the counter's value and move it on; a value past the end stops the worker. */
  function Claim(world: World, s: State, w: nat): State
    requires w < |s.workers|
  {
    if s.next < |world.prompts|
    then Put(s.(next := s.next + 1, claims := s.claims + [s.next]), w, Working(s.next, Looking))
    else Put(s.(next := s.next + 1), w, Stopped)
  }

  /** One step of a completion, or of reporting that it failed. */
  function Advance(world: World, s: State, w: nat, reply: Reply): State
    requires w < |s.workers| && s.workers[w].Working? && s.workers[w].i < |world.prompts|
    requires !s.workers[w].task.Finishing?
  {
    var i := s.workers[w].i;
    match s.workers[w].task
    case Looking => Put(s, w, Working(i, if KeyOf(world, i) in s.cache then CountingHit else CountingMiss))
    case CountingHit => Put(s.(hits := s.hits + 1), w, Working(i, Finishing(Hit)))
    case CountingMiss => Put(s.(misses := s.misses + 1), w, Working(i, Calling))
    case Calling =>
      Put(s, w, Working(i, if reply.Ok? then Inserting(reply.value) else CountingFailure(reply.error)))
    case Inserting(answer) =>
      Put(s.(cache := s.cache[KeyOf(world, i) := answer]), w, Working(i, Finishing(Fetched(answer))))
    case CountingFailure(error) => Put(s.(failed := s.failed + 1), w, Working(i, Blaming(error)))
    case Blaming(error) =>
      Put(s.(firstError := if s.firstError.None? then Some(error) else s.firstError), w,
          Working(i, Finishing(Failed(error))))
  }

  function Finish(s: State, w: nat): State
    requires w < |s.workers| && s.workers[w].Working? && s.workers[w].task.Finishing?
  {
    Put(s.(done := s.done + 1, ended := s.ended[s.workers[w].i := s.workers[w].task.ending]), w, Claiming)
  }

  /** One atomic step of one worker; `reply` is what the provider would say if it is asked now. */
  function Next(world: World, s: State, w: nat, reply: Reply): State
    requires w < |s.workers| && InRange(world, s)
  {
    match s.workers[w]
    case Claiming => Claim(world, s, w)
    case Working(i, task) => if task.Finishing? then Finish(s, w) else Advance(world, s, w, reply)
    case Stopped => s
  }

  // ----- counting workers

  function One(b: bool): nat { if b then 1 else 0 }

  function CountOf(ws: seq<Worker>, p: Worker -> bool): nat {
    if ws == [] then 0 else One(p(ws[0])) + CountOf(ws[1..], p)
  }

  lemma {:induction false} CountMoves(ws: seq<Worker>, w: nat, worker: Worker, p: Worker -> bool)
    requires w < |ws|
    ensures CountOf(ws[w := worker], p) + One(p(ws[w])) == CountOf(ws, p) + One(p(worker))
  {
    if w == 0 {
      assert ws[w := worker][1..] == ws[1..];
    } else {
      CountMoves(ws[1..], w - 1, worker, p);
      assert ws[w := worker][1..] == ws[1..][w - 1 := worker];
    }
  }

  lemma {:induction false} CountNone(ws: seq<Worker>, p: Worker -> bool)
    requires forall w :: 0 <= w < |ws| ==> !p(ws[w])
    ensures CountOf(ws, p) == 0
  {
    if ws != [] { CountNone(ws[1..], p); }
  }

  // ----- the invariant: claims

  function Busy(): Worker -> bool { (p: Worker) => p.Working? }

  function Capped(world: World, s: State): nat {
    if s.next < |world.prompts| then s.next else |world.prompts|
  }

  /** What a busy worker holds was claimed, has not ended, and is held by no one else. */
  ghost predicate HeldApart(world: World, s: State) {
    && (forall w :: 0 <= w < |s.workers| && s.workers[w].Working? ==>
          s.workers[w].i < Capped(world, s) && s.workers[w].i !in s.ended)
    && (forall v, w :: 0 <= v < w < |s.workers| && s.workers[v].Working? && s.workers[w].Working? ==>
          s.workers[v].i != s.workers[w].i)
    && (forall i :: i in s.ended ==> i < Capped(world, s))
    && (forall w :: 0 <= w < |s.workers| && s.workers[w].Stopped? ==> |world.prompts| <= s.next)
  }

  /** Every index below the counter was claimed once, and is held by one worker or has ended. */
  ghost predicate Accounted(world: World, s: State) {
    && s.claims == Numbers(0, Capped(world, s))
    && |s.ended| + CountOf(s.workers, Busy()) == Capped(world, s)
    && s.done == |s.ended|
  }

  lemma HeldClaim(world: World, s: State, w: nat)
    requires w < |s.workers| && HeldApart(world, s) && s.workers[w].Claiming?
    ensures HeldApart(world, Claim(world, s, w))
  {
  }

  lemma HeldAdvance(world: World, s: State, w: nat, reply: Reply)
    requires w < |s.workers| && HeldApart(world, s) && s.workers[w].Working? && !s.workers[w].task.Finishing?
    ensures HeldApart(world, Advance(world, s, w, reply))
  {
    AdvanceMoves(world, s, w, reply);
    hide Advance;
  }

  /** What advancing leaves alone. */
  lemma AdvanceMoves(world: World, s: State, w: nat, reply: Reply)
    requires w < |s.workers| && s.workers[w].Working? && s.workers[w].i < |world.prompts|
    requires !s.workers[w].task.Finishing?
    ensures var s' := Advance(world, s, w, reply);
      && |s'.workers| == |s.workers| && s'.workers == s.workers[w := s'.workers[w]]
      && s'.workers[w].Working? && s'.workers[w].i == s.workers[w].i
      && s'.next == s.next && s'.ended == s.ended && s'.claims == s.claims && s'.done == s.done
  {
  }

  lemma HeldFinish(world: World, s: State, w: nat)
    requires w < |s.workers| && HeldApart(world, s) && s.workers[w].Working? && s.workers[w].task.Finishing?
    ensures HeldApart(world, Finish(s, w))
  {
  }

  lemma AccountedStep(world: World, s: State, w: nat, reply: Reply)
    requires w < |s.workers| && HeldApart(world, s) && Accounted(world, s)
    ensures InRange(world, s) && Accounted(world, Next(world, s, w, reply))
  {
    match s.workers[w]
    case Claiming =>
      CountMoves(s.workers, w, Claim(world, s, w).workers[w], Busy());
      hide CountOf;
      assert Numbers(0, s.next + 1) == Numbers(0, s.next) + [s.next];
    case Working(i, task) =>
      if task.Finishing? {
        CountMoves(s.workers, w, Claiming, Busy());
        hide CountOf;
      } else {
        AdvanceMoves(world, s, w, reply);
        CountMoves(s.workers, w, Advance(world, s, w, reply).workers[w], Busy());
        hide CountOf, Advance;
      }
    case Stopped =>
  }

  lemma HeldStep(world: World, s: State, w: nat, reply: Reply)
    requires w < |s.workers| && HeldApart(world, s)
    ensures InRange(world, s) && HeldApart(world, Next(world, s, w, reply))
    ensures |Next(world, s, w, reply).workers| == |s.workers|
  {
    hide Claim, Advance, Finish, HeldApart;
    InRangeOf(world, s);
    match s.workers[w]
    case Claiming => HeldClaim(world, s, w); SameWorkers(world, s, w);
    case Working(i, task) =>
      if task.Finishing? { HeldFinish(world, s, w); FinishWorkers(s, w); }
      else { HeldAdvance(world, s, w, reply); AdvanceMoves(world, s, w, reply); }
    case Stopped =>
  }

  lemma InRangeOf(world: World, s: State)
    requires HeldApart(world, s)
    ensures InRange(world, s)
  {
  }

  lemma SameWorkers(world: World, s: State, w: nat)
    requires w < |s.workers|
    ensures |Claim(world, s, w).workers| == |s.workers|
  {
  }

  lemma FinishWorkers(s: State, w: nat)
    requires w < |s.workers| && s.workers[w].Working? && s.workers[w].task.Finishing?
    ensures |Finish(s, w).workers| == |s.workers|
  {
  }

  // ----- the invariant: the counters

  function EndedAs(ended: map<nat, Ending>, kind: Ending -> bool): set<nat> {
    set i | i in ended && kind(ended[i])
  }

  function IsHit(): Ending -> bool { (e: Ending) => e.Hit? }
  function IsMiss(): Ending -> bool { (e: Ending) => !e.Hit? }
  function IsFailure(): Ending -> bool { (e: Ending) => e.Failed? }

  // A worker whose step has been counted but whose index has not ended.

  predicate HitPending(p: Worker) {
    p.Working? && p.task.Finishing? && p.task.ending.Hit?
  }

  predicate MissPending(p: Worker) {
    p.Working? && match p.task
      case Looking => false
      case CountingHit => false
      case CountingMiss => false
      case Finishing(ending) => !ending.Hit?
      case _ => true
  }

  predicate FailurePending(p: Worker) {
    p.Working? && (p.task.Blaming? || (p.task.Finishing? && p.task.ending.Failed?))
  }

  predicate BlamePending(p: Worker) {
    p.Working? && p.task.Finishing? && p.task.ending.Failed?
  }

  function AfterHit(): Worker -> bool { (p: Worker) => HitPending(p) }
  function AfterMiss(): Worker -> bool { (p: Worker) => MissPending(p) }
  function AfterFailure(): Worker -> bool { (p: Worker) => FailurePending(p) }
  function AfterBlame(): Worker -> bool { (p: Worker) => BlamePending(p) }

  ghost predicate Counted(s: State) {
    var pending := CountsOf(s.workers);
    && s.hits == |EndedAs(s.ended, IsHit())| + pending.hits
    && s.misses == |EndedAs(s.ended, IsMiss())| + pending.misses
    && s.failed == |EndedAs(s.ended, IsFailure())| + pending.failures
    && (s.firstError.Some? <==> |EndedAs(s.ended, IsFailure())| + pending.blames > 0)
  }

  /** The four counts of a list of workers. */
  datatype Counts = Counts(hits: nat, misses: nat, failures: nat, blames: nat)

  function CountsOf(ws: seq<Worker>): Counts {
    Counts(CountOf(ws, AfterHit()), CountOf(ws, AfterMiss()), CountOf(ws, AfterFailure()), CountOf(ws, AfterBlame()))
  }

  /** All four counts move together with one worker. */
  lemma CountsMove(ws: seq<Worker>, w: nat, worker: Worker)
    requires w < |ws|
    ensures var was, now := CountsOf(ws), CountsOf(ws[w := worker]);
      && now.hits + One(HitPending(ws[w])) == was.hits + One(HitPending(worker))
      && now.misses + One(MissPending(ws[w])) == was.misses + One(MissPending(worker))
      && now.failures + One(FailurePending(ws[w])) == was.failures + One(FailurePending(worker))
      && now.blames + One(BlamePending(ws[w])) == was.blames + One(BlamePending(worker))
  {
    CountMoves(ws, w, worker, AfterHit());
    CountMoves(ws, w, worker, AfterMiss());
    CountMoves(ws, w, worker, AfterFailure());
    CountMoves(ws, w, worker, AfterBlame());
  }

  lemma OneMoreEnded(ended: map<nat, Ending>, i: nat, ending: Ending, kind: Ending -> bool)
    requires i !in ended
    ensures |EndedAs(ended[i := ending], kind)| == |EndedAs(ended, kind)| + One(kind(ending))
  {
    if kind(ending) {
      assert EndedAs(ended[i := ending], kind) == EndedAs(ended, kind) + {i};
    } else {
      assert EndedAs(ended[i := ending], kind) == EndedAs(ended, kind);
    }
  }

  lemma CountedClaim(world: World, s: State, w: nat)
    requires w < |s.workers| && Counted(s) && s.workers[w].Claiming?
    ensures Counted(Claim(world, s, w))
  {
    CountsMove(s.workers, w, Claim(world, s, w).workers[w]);
    hide CountsOf, EndedAs;
  }

  lemma CountedAdvance(world: World, s: State, w: nat, reply: Reply)
    requires w < |s.workers| && s.workers[w].Working? && s.workers[w].i < |world.prompts|
    requires !s.workers[w].task.Finishing? && Counted(s)
    ensures Counted(Advance(world, s, w, reply))
  {
    AdvanceMoves(world, s, w, reply);
    CountsMove(s.workers, w, Advance(world, s, w, reply).workers[w]);
    hide CountsOf, EndedAs, KeyOf;
  }

  lemma CountedFinish(s: State, w: nat)
    requires w < |s.workers| && s.workers[w].Working? && s.workers[w].task.Finishing?
    requires s.workers[w].i !in s.ended && Counted(s)
    ensures Counted(Finish(s, w))
  {
    CountsMove(s.workers, w, Claiming);
    var i, ending := s.workers[w].i, s.workers[w].task.ending;
    OneMoreEnded(s.ended, i, ending, IsHit());
    OneMoreEnded(s.ended, i, ending, IsMiss());
    OneMoreEnded(s.ended, i, ending, IsFailure());
    hide CountsOf, EndedAs;
  }

  lemma CountedStep(world: World, s: State, w: nat, reply: Reply)
    requires w < |s.workers| && HeldApart(world, s) && Counted(s)
    ensures InRange(world, s) && Counted(Next(world, s, w, reply))
  {
    hide Claim, Advance, Finish, Counted;
    match s.workers[w]
    case Claiming => CountedClaim(world, s, w);
    case Working(i, task) =>
      if task.Finishing? { CountedFinish(s, w); } else { CountedAdvance(world, s, w, reply); }
    case Stopped =>
  }

  // ----- the invariant: the cache and the blame

  /** Some index ended, or is about to end, this way. */
  ghost predicate Known(s: State, i: nat, ending: Ending) {
    || (i in s.ended && s.ended[i] == ending)
    || (exists w :: 0 <= w < |s.workers| && s.workers[w] == Working(i, Finishing(ending)))
  }

  /** Past the lookup that missed. */
  predicate Missed(task: Task) {
    !task.Looking? && !task.CountingHit? && !(task.Finishing? && task.ending.Hit?)
  }

  /** A hit to be counted, or an ending that leaves the prompt cached. */
  predicate Served(task: Task) {
    task.CountingHit? || (task.Finishing? && !task.ending.Failed?)
  }

  ghost predicate CacheKept(world: World, s: State) {
    && (forall k :: k in world.initial ==> k in s.cache && s.cache[k] == world.initial[k])
    && (forall k :: k in s.cache && k !in world.initial ==>
          exists i: nat :: i < |world.prompts| && KeyOf(world, i) == k && Known(s, i, Fetched(s.cache[k])))
  }

  ghost predicate Answered(world: World, s: State) {
    && (forall w :: 0 <= w < |s.workers| && s.workers[w].Working? ==>
          && s.workers[w].i < |world.prompts|
          && (Missed(s.workers[w].task) ==> KeyOf(world, s.workers[w].i) !in world.initial)
          && (Served(s.workers[w].task) ==> KeyOf(world, s.workers[w].i) in s.cache))
    && (forall i :: i in s.ended ==>
          && i < |world.prompts|
          && (!s.ended[i].Hit? ==> KeyOf(world, i) !in world.initial)
          && (!s.ended[i].Failed? ==> KeyOf(world, i) in s.cache))
  }

  ghost predicate Blamed(s: State) {
    s.firstError.Some? ==> exists i :: Known(s, i, Failed(s.firstError.value))
  }

  /** Nothing known is forgotten by a step. */
  lemma KnownStays(world: World, s: State, w: nat, reply: Reply, i: nat, ending: Ending)
    requires w < |s.workers| && HeldApart(world, s) && Known(s, i, ending)
    ensures InRange(world, s) && Known(Next(world, s, w, reply), i, ending)
  {
    hide KeyOf;
    var s' := Next(world, s, w, reply);
    EndedStays(world, s, w, reply);
    if !(i in s.ended && s.ended[i] == ending) {
      var v :| 0 <= v < |s.workers| && s.workers[v] == Working(i, Finishing(ending));
      if v != w {
        assert s'.workers[v] == s.workers[v];
      }
    }
  }

  lemma EndedStays(world: World, s: State, w: nat, reply: Reply)
    requires w < |s.workers| && HeldApart(world, s)
    ensures InRange(world, s)
    ensures forall i :: i in s.ended ==>
      i in Next(world, s, w, reply).ended && Next(world, s, w, reply).ended[i] == s.ended[i]
  {
    hide KeyOf;
  }

  /** What `Answered` asks of one worker. */
  ghost predicate AnsweredAt(world: World, p: Worker, cache: map<nat, string>) {
    p.Working? ==>
      && p.i < |world.prompts|
      && (Missed(p.task) ==> KeyOf(world, p.i) !in world.initial)
      && (Served(p.task) ==> KeyOf(world, p.i) in cache)
  }

  lemma AdvanceAnswers(world: World, s: State, w: nat, reply: Reply)
    requires w < |s.workers| && s.workers[w].Working? && s.workers[w].i < |world.prompts|
    requires !s.workers[w].task.Finishing?
    requires AnsweredAt(world, s.workers[w], s.cache)
    requires forall k :: k in world.initial ==> k in s.cache
    ensures var s' := Advance(world, s, w, reply);
      AnsweredAt(world, s'.workers[w], s'.cache) && s.cache.Keys <= s'.cache.Keys
  {
  }

  lemma AnsweredStep(world: World, s: State, w: nat, reply: Reply)
    requires w < |s.workers| && InRange(world, s)
    requires Answered(world, s) && CacheKept(world, s)
    ensures Answered(world, Next(world, s, w, reply))
  {
    hide KeyOf, Missed, Served;
    var s' := Next(world, s, w, reply);
    assert AnsweredAt(world, s.workers[w], s.cache);
    match s.workers[w]
    case Claiming =>
      FreshClaim(world, s, w);
      Elsewhere(world, s, s', w);
    case Working(i, task) =>
      if task.Finishing? {
        EndingAnswers(world, s.workers[w], s.cache);
        Elsewhere(world, s, s', w);
      } else {
        AdvanceAnswers(world, s, w, reply);
        AdvanceMoves(world, s, w, reply);
        hide Advance;
        Elsewhere(world, s, s', w);
      }
    case Stopped =>
  }

  lemma FreshClaim(world: World, s: State, w: nat)
    requires w < |s.workers|
    ensures AnsweredAt(world, Claim(world, s, w).workers[w], s.cache)
  {
  }

  lemma EndingAnswers(world: World, p: Worker, cache: map<nat, string>)
    requires p.Working? && p.task.Finishing? && AnsweredAt(world, p, cache)
    ensures p.i < |world.prompts|
    ensures !p.task.ending.Hit? ==> KeyOf(world, p.i) !in world.initial
    ensures !p.task.ending.Failed? ==> KeyOf(world, p.i) in cache
  {
  }

  /** One worker moving answers for all of them, so long as nothing leaves the cache. */
  lemma Elsewhere(world: World, s: State, s': State, w: nat)
    requires w < |s.workers| && Answered(world, s) && |s'.workers| == |s.workers|
    requires s'.workers == s.workers[w := s'.workers[w]] && AnsweredAt(world, s'.workers[w], s'.cache)
    requires s.cache.Keys <= s'.cache.Keys
    requires forall i :: i in s'.ended ==>
      (i in s.ended && s'.ended[i] == s.ended[i]) ||
      (i < |world.prompts|
       && (!s'.ended[i].Hit? ==> KeyOf(world, i) !in world.initial)
       && (!s'.ended[i].Failed? ==> KeyOf(world, i) in s'.cache))
    ensures Answered(world, s')
  {
    hide KeyOf, Missed, Served;
    forall v | 0 <= v < |s'.workers| && v != w ensures AnsweredAt(world, s'.workers[v], s'.cache) {
      assert s'.workers[v] == s.workers[v];
    }
  }

  /** The only step that touches the cache, and what it leaves the worker saying. */
  lemma CacheMoves(world: World, s: State, w: nat, reply: Reply)
    requires w < |s.workers| && InRange(world, s)
    ensures var s' := Next(world, s, w, reply);
      if s.workers[w].Working? && s.workers[w].task.Inserting? then
        var i, answer := s.workers[w].i, s.workers[w].task.answer;
        s'.cache == s.cache[KeyOf(world, i) := answer] &&
          s'.workers == s.workers[w := Working(i, Finishing(Fetched(answer)))]
      else s'.cache == s.cache
  {
    hide KeyOf;
  }

  lemma BlameMoves(world: World, s: State, w: nat, reply: Reply)
    requires w < |s.workers| && InRange(world, s)
    ensures var s' := Next(world, s, w, reply);
      if s.workers[w].Working? && s.workers[w].task.Blaming? && s.firstError.None? then
        var i, error := s.workers[w].i, s.workers[w].task.blamed;
        s'.firstError == Some(error) && s'.workers == s.workers[w := Working(i, Finishing(Failed(error)))]
      else s'.firstError == s.firstError
  {
    hide KeyOf;
  }

  lemma CacheStep(world: World, s: State, w: nat, reply: Reply)
    requires w < |s.workers| && HeldApart(world, s) && CacheKept(world, s) && Answered(world, s)
    ensures InRange(world, s) && CacheKept(world, Next(world, s, w, reply))
  {
    InRangeOf(world, s);
    CacheMoves(world, s, w, reply);
    hide Next, HeldApart, KeyOf;
    var s' := Next(world, s, w, reply);
    forall k | k in s'.cache && k !in world.initial
      ensures exists i: nat :: i < |world.prompts| && KeyOf(world, i) == k && Known(s', i, Fetched(s'.cache[k]))
    {
      if k in s.cache && s'.cache[k] == s.cache[k] {
        var i: nat :| i < |world.prompts| && KeyOf(world, i) == k && Known(s, i, Fetched(s.cache[k]));
        KnownStays(world, s, w, reply, i, Fetched(s.cache[k]));
      } else {
        assert s'.workers[w] == Working(s.workers[w].i, Finishing(Fetched(s'.cache[k])));
        assert Known(s', s.workers[w].i, Fetched(s'.cache[k]));
      }
    }
  }

  lemma BlameStep(world: World, s: State, w: nat, reply: Reply)
    requires w < |s.workers| && HeldApart(world, s) && Blamed(s)
    ensures InRange(world, s) && Blamed(Next(world, s, w, reply))
  {
    InRangeOf(world, s);
    BlameMoves(world, s, w, reply);
    hide Next, HeldApart, KeyOf;
    var s' := Next(world, s, w, reply);
    if s'.firstError.Some? {
      if s.firstError.Some? {
        var i :| Known(s, i, Failed(s.firstError.value));
        KnownStays(world, s, w, reply, i, Failed(s.firstError.value));
      } else {
        assert s'.workers[w] == Working(s.workers[w].i, Finishing(Failed(s'.firstError.value)));
        assert Known(s', s.workers[w].i, Failed(s'.firstError.value));
      }
    }
  }

  // ----- every interleaving

  datatype Turn = Turn(worker: nat, reply: Reply)

  ghost predicate Inv(world: World, s: State) {
    HeldApart(world, s) && Accounted(world, s) && Counted(s)
    && CacheKept(world, s) && Answered(world, s) && Blamed(s)
  }

  lemma InvStep(world: World, s: State, w: nat, reply: Reply)
    requires w < |s.workers| && Inv(world, s)
    ensures InRange(world, s) && Inv(world, Next(world, s, w, reply))
    ensures |Next(world, s, w, reply).workers| == |s.workers|
  {
    hide HeldApart, Accounted, Counted, CacheKept, Answered, Blamed, Next;
    InRangeOf(world, s);
    HeldStep(world, s, w, reply);
    AccountedStep(world, s, w, reply);
    CountedStep(world, s, w, reply);
    AnsweredStep(world, s, w, reply);
    CacheStep(world, s, w, reply);
    BlameStep(world, s, w, reply);
  }

  lemma InvAtStart(world: World, workers: nat)
    ensures Inv(world, Start(world, workers))
  {
    var s := Start(world, workers);
    assert forall w :: 0 <= w < |s.workers| ==> s.workers[w] == Claiming;
    CountNone(s.workers, Busy());
    CountNone(s.workers, AfterHit());
    CountNone(s.workers, AfterMiss());
    CountNone(s.workers, AfterFailure());
    CountNone(s.workers, AfterBlame());
    assert Numbers(0, 0) == [];
    assert EndedAs(s.ended, IsHit()) == {} && EndedAs(s.ended, IsMiss()) == {} && EndedAs(s.ended, IsFailure()) == {};
  }

  ghost function Begin(world: World, workers: nat): (s: State)
    ensures Inv(world, s) && s == Start(world, workers) && |s.workers| == workers
  {
    InvAtStart(world, workers);
    Start(world, workers)
  }

  /** The state a schedule leaves: each turn one worker's next atomic step. */
  ghost function Run(world: World, s: State, schedule: seq<Turn>): State
    requires Inv(world, s) && forall t :: t in schedule ==> t.worker < |s.workers|
    ensures Inv(world, Run(world, s, schedule))
    decreases |schedule|
  {
    if schedule == [] then s
    else
      var t := schedule[0];
      InvStep(world, s, t.worker, t.reply);
      Run(world, Next(world, s, t.worker, t.reply), schedule[1..])
  }

  // ----- when every worker has stopped

  ghost predicate AllStopped(s: State) {
    s.workers != [] && forall w :: 0 <= w < |s.workers| ==> s.workers[w].Stopped?
  }

  /** What a finished pre-fetch amounts to. */
  ghost predicate Finished(world: World, s: State) {
    var n := |world.prompts|;
    && s.claims == Numbers(0, n)
    && s.ended.Keys == UpTo(n)
    && s.done == n && s.hits + s.misses == n
    && s.hits == |EndedAs(s.ended, IsHit())| && s.failed == |EndedAs(s.ended, IsFailure())|
    && (s.firstError.Some? <==> s.failed > 0)
    && (s.firstError.Some? ==> exists i :: i in s.ended && s.ended[i] == Failed(s.firstError.value))
    && (forall k :: k in world.initial ==> k in s.cache && s.cache[k] == world.initial[k])
    && (forall k :: k in s.cache && k !in world.initial ==> FetchedFor(world, s, k))
    && (forall i :: i in s.ended ==>
          && i < n
          && (!s.ended[i].Failed? ==> KeyOf(world, i) in s.cache)
          && (!s.ended[i].Hit? ==> KeyOf(world, i) !in world.initial))
  }

  /** The entry under a key is the answer some index of that key fetched. */
  ghost predicate FetchedFor(world: World, s: State, k: nat)
    requires k in s.cache
  {
    exists i: nat :: i < |world.prompts| && KeyOf(world, i) == k && i in s.ended && s.ended[i] == Fetched(s.cache[k])
  }

  lemma AllEnded(world: World, s: State)
    requires HeldApart(world, s) && Accounted(world, s) && AllStopped(s)
    ensures Capped(world, s) == |world.prompts| && s.ended.Keys == UpTo(|world.prompts|)
  {
    assert s.workers[0].Stopped?;
    CountNone(s.workers, Busy());
    UpToSize(|world.prompts|);
    assert |s.ended.Keys| == |s.ended|;
    SubsetOfSameSize(s.ended.Keys, UpTo(|world.prompts|));
  }

  lemma AllCounted(s: State)
    requires Counted(s) && AllStopped(s)
    ensures s.hits == |EndedAs(s.ended, IsHit())| && s.misses == |EndedAs(s.ended, IsMiss())|
    ensures s.failed == |EndedAs(s.ended, IsFailure())| && (s.firstError.Some? <==> s.failed > 0)
    ensures s.hits + s.misses == |s.ended|
  {
    CountNone(s.workers, AfterHit());
    CountNone(s.workers, AfterMiss());
    CountNone(s.workers, AfterFailure());
    CountNone(s.workers, AfterBlame());
    HitOrMiss(s.ended);
    hide EndedAs;
  }

  lemma HitOrMiss(ended: map<nat, Ending>)
    ensures |EndedAs(ended, IsHit())| + |EndedAs(ended, IsMiss())| == |ended|
  {
    var hits, misses := EndedAs(ended, IsHit()), EndedAs(ended, IsMiss());
    assert ended.Keys == hits + misses && hits !! misses;
    assert |ended.Keys| == |ended|;
  }

  lemma KnownEnded(s: State, i: nat, ending: Ending)
    requires AllStopped(s) && Known(s, i, ending)
    ensures i in s.ended && s.ended[i] == ending
  {
  }

  lemma InvFinishes(world: World, s: State)
    requires Inv(world, s) && AllStopped(s)
    ensures Finished(world, s)
  {
    AllEnded(world, s);
    AllCounted(s);
    hide HeldApart, Accounted, Counted, EndedAs, KeyOf, Known, UpTo;
    assert s.done == |s.ended| && s.claims == Numbers(0, Capped(world, s)) by { FromAccounts(world, s); }
    UpToSize(|world.prompts|);
    assert |s.ended.Keys| == |s.ended|;
    if s.firstError.Some? {
      var i :| Known(s, i, Failed(s.firstError.value));
      KnownEnded(s, i, Failed(s.firstError.value));
    }
    forall k | k in s.cache && k !in world.initial ensures FetchedFor(world, s, k) {
      var i: nat :| i < |world.prompts| && KeyOf(world, i) == k && Known(s, i, Fetched(s.cache[k]));
      KnownEnded(s, i, Fetched(s.cache[k]));
    }
  }

  lemma FromAccounts(world: World, s: State)
    requires Accounted(world, s)
    ensures s.done == |s.ended| && s.claims == Numbers(0, Capped(world, s))
  {
  }

  /**
   In every interleaving of one or more workers, whatever the provider answers: each index is
   claimed exactly once, every prompt is accounted for, a first error is kept exactly when
   something failed, and nothing is in the cache but what was there and what was fetched.
   */
  lemma EveryInterleavingFinishes(world: World, workers: nat, schedule: seq<Turn>)
    requires workers > 0 && forall t :: t in schedule ==> t.worker < workers
    requires AllStopped(Run(world, Begin(world, workers), schedule))
    ensures Finished(world, Run(world, Begin(world, workers), schedule))
  {
    hide Inv, Finished, AllStopped, Start;
    InvFinishes(world, Run(world, Begin(world, workers), schedule));
  }

  /** The first error stays the first: nothing blamed later replaces it. */
  lemma {:induction false} FirstErrorStays(world: World, s: State, schedule: seq<Turn>)
    requires Inv(world, s) && forall t :: t in schedule ==> t.worker < |s.workers|
    requires s.firstError.Some?
    ensures Run(world, s, schedule).firstError == s.firstError
    decreases |schedule|
  {
    hide Inv, Next;
    if schedule != [] {
      var t := schedule[0];
      assert t in schedule && forall u :: u in schedule[1..] ==> u in schedule;
      InvStep(world, s, t.worker, t.reply);
      BlameMoves(world, s, t.worker, t.reply);
      FirstErrorStays(world, Next(world, s, t.worker, t.reply), schedule[1..]);
    }
  }

  // ----- progress

  function Weight(p: Worker): nat {
    match p
    case Stopped => 0
    case Claiming => 1
    case Working(_, Finishing(_)) => 2
    case Working(_, Blaming(_)) => 3
    case Working(_, Inserting(_)) => 4
    case Working(_, CountingFailure(_)) => 4
    case Working(_, Calling) => 5
    case Working(_, CountingHit) => 6
    case Working(_, CountingMiss) => 6
    case Working(_, Looking) => 7
  }

  function WeightOf(ws: seq<Worker>): nat {
    if ws == [] then 0 else Weight(ws[0]) + WeightOf(ws[1..])
  }

  lemma {:induction false} WeightMoves(ws: seq<Worker>, w: nat, worker: Worker)
    requires w < |ws|
    ensures WeightOf(ws[w := worker]) + Weight(ws[w]) == WeightOf(ws) + Weight(worker)
  {
    if w == 0 {
      assert ws[w := worker][1..] == ws[1..];
    } else {
      WeightMoves(ws[1..], w - 1, worker);
      assert ws[w := worker][1..] == ws[1..][w - 1 := worker];
    }
  }

  /** How many steps are left at most. */
  function Remaining(world: World, s: State): nat {
    7 * (|world.prompts| - Capped(world, s)) + WeightOf(s.workers)
  }

  lemma AdvanceLightens(world: World, s: State, w: nat, reply: Reply)
    requires w < |s.workers| && s.workers[w].Working? && s.workers[w].i < |world.prompts|
    requires !s.workers[w].task.Finishing?
    ensures Weight(Advance(world, s, w, reply).workers[w]) < Weight(s.workers[w])
  {
  }

  /** Every step of a worker that has not stopped is progress, so no schedule runs forever. */
  lemma StepProgresses(world: World, s: State, w: nat, reply: Reply)
    requires w < |s.workers| && InRange(world, s) && !s.workers[w].Stopped?
    ensures Remaining(world, Next(world, s, w, reply)) < Remaining(world, s)
  {
    match s.workers[w]
    case Claiming =>
      WeightMoves(s.workers, w, Claim(world, s, w).workers[w]);
      hide WeightOf;
    case Working(i, task) =>
      if task.Finishing? {
        WeightMoves(s.workers, w, Claiming);
        hide WeightOf;
      } else {
        AdvanceLightens(world, s, w, reply);
        AdvanceMoves(world, s, w, reply);
        WeightMoves(s.workers, w, Advance(world, s, w, reply).workers[w]);
        hide WeightOf, Weight, Advance;
      }
  }

  /** How many turns of a schedule went to a worker that had not stopped. */
  ghost function Steps(world: World, s: State, schedule: seq<Turn>): nat
    requires Inv(world, s) && forall t :: t in schedule ==> t.worker < |s.workers|
    decreases |schedule|
  {
    if schedule == [] then 0
    else
      var t := schedule[0];
      InvStep(world, s, t.worker, t.reply);
      One(!s.workers[t.worker].Stopped?) + Steps(world, Next(world, s, t.worker, t.reply), schedule[1..])
  }

  /** The bound: seven steps a prompt and one a worker, whatever the schedule and the replies. */
  lemma {:induction false} StepsAreBounded(world: World, s: State, schedule: seq<Turn>)
    requires Inv(world, s) && forall t :: t in schedule ==> t.worker < |s.workers|
    ensures Steps(world, s, schedule) + Remaining(world, Run(world, s, schedule)) <= Remaining(world, s)
    decreases |schedule|
  {
    hide Inv, Next, Remaining;
    if schedule != [] {
      var t := schedule[0];
      assert t in schedule && forall u :: u in schedule[1..] ==> u in schedule;
      InvStep(world, s, t.worker, t.reply);
      StepsAreBounded(world, Next(world, s, t.worker, t.reply), schedule[1..]);
      if s.workers[t.worker].Stopped? {
        StoppedStays(world, s, t.worker, t.reply);
      } else {
        StepProgresses(world, s, t.worker, t.reply);
      }
    }
  }

  lemma StoppedStays(world: World, s: State, w: nat, reply: Reply)
    requires w < |s.workers| && InRange(world, s) && s.workers[w].Stopped?
    ensures Next(world, s, w, reply) == s
  {
  }

  lemma {:induction false} WeightAtStart(workers: nat)
    ensures WeightOf(seq(workers, i => Claiming)) == workers
  {
    if workers > 0 {
      WeightAtStart(workers - 1);
      assert seq(workers, i => Claiming)[1..] == seq(workers - 1, i => Claiming);
    }
  }

  /** From the start that is at most seven steps a prompt and one a worker. */
  lemma EveryScheduleEnds(world: World, workers: nat, schedule: seq<Turn>)
    requires forall t :: t in schedule ==> t.worker < workers
    ensures Steps(world, Begin(world, workers), schedule) <= 7 * |world.prompts| + workers
  {
    hide Inv;
    StepsAreBounded(world, Begin(world, workers), schedule);
    WeightAtStart(workers);
  }

  // ----- a deterministic provider

  predicate TaskAgrees(says: Reply, task: Task) {
    match task
    case Inserting(answer) => says == Ok(answer)
    case CountingFailure(error) => says == Err(error)
    case Blaming(error) => says == Err(error)
    case Finishing(ending) => EndingAgrees(says, ending)
    case _ => true
  }

  predicate EndingAgrees(says: Reply, ending: Ending) {
    match ending
    case Hit => true
    case Fetched(answer) => says == Ok(answer)
    case Failed(error) => says == Err(error)
  }

  /** Everything recorded is what the provider says of that prompt. */
  ghost predicate Agrees(world: World, provider: string -> Reply, s: State) {
    && (forall w :: 0 <= w < |s.workers| && s.workers[w].Working? ==>
          s.workers[w].i < |world.prompts|
          && TaskAgrees(provider(world.prompts[s.workers[w].i]), s.workers[w].task))
    && (forall i :: i in s.ended ==>
          i < |world.prompts| && EndingAgrees(provider(world.prompts[i]), s.ended[i]))
  }

  function ReplyTo(world: World, provider: string -> Reply, s: State, w: nat): Reply
    requires w < |s.workers| && InRange(world, s)
  {
    if s.workers[w].Working? then provider(world.prompts[s.workers[w].i]) else Err("")
  }

  lemma AgreesStep(world: World, provider: string -> Reply, s: State, w: nat)
    requires w < |s.workers| && InRange(world, s) && Agrees(world, provider, s)
    ensures Agrees(world, provider, Next(world, s, w, ReplyTo(world, provider, s, w)))
  {
    hide KeyOf;
    var s' := Next(world, s, w, ReplyTo(world, provider, s, w));
    forall v | 0 <= v < |s'.workers| && s'.workers[v].Working?
      ensures s'.workers[v].i < |world.prompts|
      ensures TaskAgrees(provider(world.prompts[s'.workers[v].i]), s'.workers[v].task)
    {
      if v != w { assert s'.workers[v] == s.workers[v]; }
    }
  }

  /** The state an interleaving of workers leaves, each call answered by the one provider. */
  ghost function RunAgainst(world: World, provider: string -> Reply, s: State, turns: seq<nat>): (r: State)
    requires Inv(world, s) && forall w :: w in turns ==> w < |s.workers|
    ensures Inv(world, r)
    decreases |turns|
  {
    if turns == [] then s
    else
      assert turns[0] in turns && forall w :: w in turns[1..] ==> w in turns;
      InRangeOf(world, s);
      var reply := ReplyTo(world, provider, s, turns[0]);
      InvStep(world, s, turns[0], reply);
      RunAgainst(world, provider, Next(world, s, turns[0], reply), turns[1..])
  }

  lemma {:induction false} RunAgrees(world: World, provider: string -> Reply, s: State, turns: seq<nat>)
    requires Inv(world, s) && Agrees(world, provider, s) && forall w :: w in turns ==> w < |s.workers|
    ensures Agrees(world, provider, RunAgainst(world, provider, s, turns))
    decreases |turns|
  {
    hide Inv, Agrees, Next;
    if turns != [] {
      var w := turns[0];
      assert w in turns && forall v :: v in turns[1..] ==> v in turns;
      assert InRange(world, s) by { InvHolds(world, s); }
      InvStep(world, s, w, ReplyTo(world, provider, s, w));
      AgreesStep(world, provider, s, w);
      RunAgrees(world, provider, Next(world, s, w, ReplyTo(world, provider, s, w)), turns[1..]);
    }
  }

  lemma InvHolds(world: World, s: State)
    requires Inv(world, s)
    ensures InRange(world, s)
  {
    InRangeOf(world, s);
  }

  /** Keys collide only for one and the same prompt. */
  ghost predicate CollisionFree(world: World) {
    forall i: nat, j: nat {:trigger KeyOf(world, i), KeyOf(world, j)} ::
      i < |world.prompts| && j < |world.prompts| && KeyOf(world, i) == KeyOf(world, j) ==>
      world.prompts[i] == world.prompts[j]
  }

  ghost predicate SomeAnswered(world: World, provider: string -> Reply, k: nat) {
    exists i: nat :: i < |world.prompts| && KeyOf(world, i) == k && provider(world.prompts[i]).Ok?
  }

  /** An entry that was not there at the start is what the provider says of every prompt of that key. */
  lemma CachedIsAnswer(world: World, provider: string -> Reply, s: State, i: nat)
    requires Finished(world, s) && Agrees(world, provider, s) && CollisionFree(world) && i < |world.prompts|
    requires KeyOf(world, i) in s.cache && KeyOf(world, i) !in world.initial
    ensures provider(world.prompts[i]) == Ok(s.cache[KeyOf(world, i)])
  {
    hide KeyOf, UpTo, EndedAs;
    var k := KeyOf(world, i);
    assert FetchedFor(world, s, k);
    var j: nat :| j < |world.prompts| && KeyOf(world, j) == k && j in s.ended && s.ended[j] == Fetched(s.cache[k]);
    assert KeyOf(world, i) == KeyOf(world, j);
  }

  /** How an index finished, by what the provider says of it. */
  ghost predicate FinishedBy(world: World, provider: string -> Reply, s: State, i: nat)
    requires i < |world.prompts|
  {
    && i in s.ended && EndingAgrees(provider(world.prompts[i]), s.ended[i])
    && (!s.ended[i].Failed? ==> KeyOf(world, i) in s.cache)
    && (!s.ended[i].Hit? ==> KeyOf(world, i) !in world.initial)
    && (KeyOf(world, i) !in world.initial && KeyOf(world, i) in s.cache ==>
          provider(world.prompts[i]) == Ok(s.cache[KeyOf(world, i)]))
  }

  lemma IndexFinishes(world: World, provider: string -> Reply, s: State, i: nat)
    requires Finished(world, s) && Agrees(world, provider, s) && CollisionFree(world) && i < |world.prompts|
    ensures FinishedBy(world, provider, s, i)
  {
    InUpTo(|world.prompts|, i);
    hide UpTo, EndedAs, KeyOf, CollisionFree;
    if KeyOf(world, i) !in world.initial && KeyOf(world, i) in s.cache {
      CachedIsAnswer(world, provider, s, i);
    }
  }

  lemma KeysAre(world: World, provider: string -> Reply, s: State, k: nat)
    requires Finished(world, s) && forall i: nat :: i < |world.prompts| ==> FinishedBy(world, provider, s, i)
    ensures k in s.cache <==> k in world.initial || SomeAnswered(world, provider, k)
  {
    hide UpTo, EndedAs, KeyOf;
    if k in s.cache && k !in world.initial {
      assert FetchedFor(world, s, k);
      var i: nat :| i < |world.prompts| && KeyOf(world, i) == k && i in s.ended && s.ended[i] == Fetched(s.cache[k]);
      assert FinishedBy(world, provider, s, i);
    }
    if k !in world.initial && SomeAnswered(world, provider, k) {
      var i: nat :| i < |world.prompts| && KeyOf(world, i) == k && provider(world.prompts[i]).Ok?;
      assert FinishedBy(world, provider, s, i);
    }
  }

  /**
   With one deterministic provider and no key collisions the result does not depend on the
   interleaving at all: the cache is what was there plus every prompt the provider answers, and
   what failed is each prompt missing at the start that the provider refuses.
   */
  lemma InterleavingIsInvisible(world: World, provider: string -> Reply, workers: nat, turns: seq<nat>)
    requires workers > 0 && (forall w :: w in turns ==> w < workers) && CollisionFree(world)
    requires AllStopped(RunAgainst(world, provider, Begin(world, workers), turns))
    ensures var s := RunAgainst(world, provider, Begin(world, workers), turns);
      && (forall k :: k in s.cache <==> k in world.initial || SomeAnswered(world, provider, k))
      && (forall k :: k in world.initial ==> s.cache[k] == world.initial[k])
      && (forall i: nat ::
            i < |world.prompts| && KeyOf(world, i) !in world.initial && provider(world.prompts[i]).Ok? ==>
            KeyOf(world, i) in s.cache && s.cache[KeyOf(world, i)] == provider(world.prompts[i]).value)
      && s.failed ==
           |set i: nat | i < |world.prompts| && KeyOf(world, i) !in world.initial && provider(world.prompts[i]).Err?|
  {
    var start := Begin(world, workers);
    assert Agrees(world, provider, start);
    hide Inv, Agrees, RunAgainst, Start, Finished, CollisionFree, AllStopped, KeyOf, SomeAnswered;
    RunAgrees(world, provider, start, turns);
    var s := RunAgainst(world, provider, start, turns);
    InvFinishes(world, s);
    Settled(world, provider, s);
  }

  lemma Settled(world: World, provider: string -> Reply, s: State)
    requires Finished(world, s) && Agrees(world, provider, s) && CollisionFree(world)
    ensures forall k :: k in s.cache <==> k in world.initial || SomeAnswered(world, provider, k)
    ensures forall k :: k in world.initial ==> s.cache[k] == world.initial[k]
    ensures forall i: nat ::
      i < |world.prompts| && KeyOf(world, i) !in world.initial && provider(world.prompts[i]).Ok? ==>
      KeyOf(world, i) in s.cache && s.cache[KeyOf(world, i)] == provider(world.prompts[i]).value
    ensures s.failed ==
      |set i: nat | i < |world.prompts| && KeyOf(world, i) !in world.initial && provider(world.prompts[i]).Err?|
  {
    forall i: nat | i < |world.prompts| ensures FinishedBy(world, provider, s, i) {
      IndexFinishes(world, provider, s, i);
    }
    forall k ensures k in s.cache <==> k in world.initial || SomeAnswered(world, provider, k) {
      KeysAre(world, provider, s, k);
    }
    hide KeyOf, Agrees, CollisionFree, SomeAnswered, EndedAs, UpTo, FetchedFor;
    FailuresAre(world, provider, s);
    forall i: nat | i < |world.prompts| && KeyOf(world, i) !in world.initial && provider(world.prompts[i]).Ok?
      ensures KeyOf(world, i) in s.cache && s.cache[KeyOf(world, i)] == provider(world.prompts[i]).value
    {
      assert FinishedBy(world, provider, s, i);
    }
  }

  lemma InUpTo(n: nat, i: nat)
    requires i < n
    ensures i in UpTo(n)
  {
  }

  lemma FailuresAre(world: World, provider: string -> Reply, s: State)
    requires s.ended.Keys == UpTo(|world.prompts|)
    requires forall i: nat :: i < |world.prompts| ==> FinishedBy(world, provider, s, i)
    ensures EndedAs(s.ended, IsFailure()) ==
      set i: nat | i < |world.prompts| && KeyOf(world, i) !in world.initial && provider(world.prompts[i]).Err?
  {
    hide KeyOf;
    forall i: nat ensures i in EndedAs(s.ended, IsFailure()) <==>
      i < |world.prompts| && KeyOf(world, i) !in world.initial && provider(world.prompts[i]).Err?
    {
      if i < |world.prompts| {
        InUpTo(|world.prompts|, i);
        assert FinishedBy(world, provider, s, i);
      }
    }
  }
}
