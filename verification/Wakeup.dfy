/** The stage's event loop: one semaphore, several queues, a fixed drain order, and producers on any thread. */
module Wakeup {

  datatype Queue = HierarchyRouter | Hierarchy | HierarchySync | Session | Compute | SessionSync | SessionRouter | Log

  /** The order in which one pass of the stage drains its queues; the hierarchy comes first and again near the end. */
  const PASS: seq<Queue> := [HierarchyRouter, Hierarchy, HierarchySync, Session, Compute, SessionSync, SessionRouter,
                             HierarchyRouter, Hierarchy, HierarchySync, Log]

  /** The queues that share the stage's semaphore. */
  predicate Wakes(q: Queue) { q != Compute && q != Log }

  type Thread = nat

  /** The thread that runs the loop; the events it processes may defer further events. */
  const LOOP: Thread := 0

  datatype Loop = Waiting | Draining(at: nat)

  /** `pending` holds the threads that have enqueued an event and not yet called notify. */
  datatype State = State(queued: multiset<Queue>, count: nat, pending: map<Thread, Queue>, loop: Loop)

  datatype Action =
    | Enqueue(thread: Thread, queue: Queue)   // first half of defer
    | Notify(thread: Thread)                  // second half of defer
    | Wake                                    // wait returns
    | Dequeue                                 // try_dequeue succeeds and the event is processed
    | Next                                    // try_dequeue fails: the next queue, or back to wait

  predicate Enabled(s: State, a: Action) {
    match a
    case Enqueue(t, q) => t !in s.pending && (t == LOOP ==> s.loop.Draining?)
    case Notify(t) => t in s.pending
    case Wake => s.loop.Waiting? && s.count > 0
    case Dequeue => s.loop.Draining? && s.loop.at < |PASS| && LOOP !in s.pending && PASS[s.loop.at] in s.queued
    case Next => s.loop.Draining? && s.loop.at < |PASS| && LOOP !in s.pending && PASS[s.loop.at] !in s.queued
  }

  function Step(s: State, a: Action): State {
    if !Enabled(s, a) then s
    else
      match a
      case Enqueue(t, q) => s.(queued := s.queued + multiset{q}, pending := s.pending[t := q])
      case Notify(t) => s.(count := s.count + (if Wakes(s.pending[t]) then 1 else 0), pending := s.pending - {t})
      case Wake => s.(count := s.count - 1, loop := Draining(0))
      case Dequeue => s.(queued := s.queued - multiset{PASS[s.loop.at]})
      case Next => s.(loop := if s.loop.at + 1 < |PASS| then Draining(s.loop.at + 1) else Waiting)
  }

  const START := State(multiset{}, 0, map[], Waiting)

  function Run(acts: seq<Action>): State {
    if acts == [] then START else Step(Run(acts[..|acts| - 1]), acts[|acts| - 1])
  }

  // ---------------------------------------------------------------- no lost wake-up

  /** The running pass has still to drain `q`. */
  ghost predicate Ahead(loop: Loop, q: Queue) {
    loop.Draining? && exists i :: loop.at <= i < |PASS| && PASS[i] == q
  }

  ghost predicate Covered(s: State, q: Queue) {
    s.count > 0 || (exists t :: t in s.pending && s.pending[t] == q) || Ahead(s.loop, q)
  }

  ghost predicate Inv(s: State) {
    && (s.loop.Draining? ==> s.loop.at < |PASS|)
    && (forall q :: Wakes(q) && q in s.queued ==> Covered(s, q))
  }

  lemma FirstPassCovers(q: Queue)
    ensures Ahead(Draining(0), q)
  {
    var at := match q
      case HierarchyRouter => 0 case Hierarchy => 1 case HierarchySync => 2 case Session => 3
      case Compute => 4 case SessionSync => 5 case SessionRouter => 6 case Log => 10;
    assert PASS[at] == q;
  }

  lemma EnqueueKeeps(s: State, t: Thread, q: Queue)
    requires Inv(s) && Enabled(s, Enqueue(t, q))
    ensures Inv(Step(s, Enqueue(t, q)))
  {
    var s' := Step(s, Enqueue(t, q));
    forall p | Wakes(p) && p in s'.queued ensures Covered(s', p) {
      if p == q {
        assert t in s'.pending && s'.pending[t] == q;
      } else {
        assert p in s.queued;
        if x :| x in s.pending && s.pending[x] == p { assert s'.pending[x] == p; }
      }
    }
  }

  lemma NotifyKeeps(s: State, t: Thread)
    requires Inv(s) && t in s.pending
    ensures Inv(Step(s, Notify(t)))
  {
    var s' := Step(s, Notify(t));
    forall p | Wakes(p) && p in s'.queued ensures Covered(s', p) {
      if x :| x in s.pending && s.pending[x] == p { assert x != t ==> s'.pending[x] == p; }
    }
  }

  lemma LoopKeeps(s: State, a: Action)
    requires Inv(s) && (a == Wake || a == Dequeue || a == Next) && Enabled(s, a)
    ensures Inv(Step(s, a))
  {
    var s' := Step(s, a);
    forall p | Wakes(p) && p in s'.queued ensures Covered(s', p) {
      FirstPassCovers(p);
      assert p in s.queued;
      if a == Next && Ahead(s.loop, p) {
        var i :| s.loop.at <= i < |PASS| && PASS[i] == p;
        assert i > s.loop.at;
      }
    }
  }

  lemma {:induction false} InvAlways(acts: seq<Action>)
    ensures Inv(Run(acts))
  {
    if acts != [] {
      var s, a := Run(acts[..|acts| - 1]), acts[|acts| - 1];
      InvAlways(acts[..|acts| - 1]);
      if Enabled(s, a) {
        match a
        case Enqueue(t, q) => EnqueueKeeps(s, t, q);
        case Notify(t) => NotifyKeeps(s, t);
        case _ => LoopKeeps(s, a);
      }
    }
  }

  /** The loop sleeps and no producer is on its way to wake it. */
  ghost predicate Asleep(s: State) { s.loop.Waiting? && s.count == 0 && s.pending == map[] }

  lemma AsleepIsDone(acts: seq<Action>, q: Queue)
    requires Asleep(Run(acts)) && Wakes(q)
    ensures q !in Run(acts).queued
  {
    InvAlways(acts);
  }

  /** An event deferred to a queue without the semaphore by another thread is left behind. */
  lemma Stranded(q: Queue)
    requires !Wakes(q)
    ensures Asleep(Run([Enqueue(1, q), Notify(1)])) && q in Run([Enqueue(1, q), Notify(1)]).queued
  {
    var acts := [Enqueue(1, q), Notify(1)];
    assert acts[..1] == [Enqueue(1, q)] && acts[..1][..0] == [];
    assert Run(acts[..1]) == Step(START, Enqueue(1, q));
    assert Run(acts).pending == map[];
  }

  /** Exactly the queues that share the semaphore are never left with an event while the loop sleeps. */
  lemma NoLostWakeup(q: Queue)
    ensures (forall acts {:trigger Run(acts)} :: Asleep(Run(acts)) ==> q !in Run(acts).queued) <==>
              q != Compute && q != Log
  {
    hide Run, Asleep;
    if Wakes(q) {
      forall acts {:trigger Run(acts)} | Asleep(Run(acts)) ensures q !in Run(acts).queued { AsleepIsDone(acts, q); }
    } else {
      Stranded(q);
    }
  }

  // ---------------------------------------------------------------- nothing gets lost on the way

  /** Calls of notify on the semaphore, times the loop was woken, and events deferred to and taken from a queue. */
  ghost function Notified(acts: seq<Action>): nat {
    if acts == [] then 0
    else
      var n, s := |acts| - 1, Run(acts[..|acts| - 1]);
      Notified(acts[..n]) +
      if acts[n].Notify? && acts[n].thread in s.pending && s.pending[acts[n].thread] !in {Compute, Log} then 1 else 0
  }

  ghost function Woken(acts: seq<Action>): nat {
    if acts == [] then 0
    else
      var n, s := |acts| - 1, Run(acts[..|acts| - 1]);
      Woken(acts[..n]) + if acts[n].Wake? && s.loop.Waiting? && s.count > 0 then 1 else 0
  }

  ghost function Deferred(acts: seq<Action>, q: Queue): nat {
    if acts == [] then 0
    else
      var n := |acts| - 1;
      Deferred(acts[..n], q) + if acts[n].Enqueue? && acts[n].queue == q && Enabled(Run(acts[..n]), acts[n]) then 1
        else 0
  }

  ghost function Processed(acts: seq<Action>, q: Queue): nat {
    if acts == [] then 0
    else
      var n, s := |acts| - 1, Run(acts[..|acts| - 1]);
      Processed(acts[..n], q) +
      if acts[n].Dequeue? && Enabled(s, acts[n]) && PASS[s.loop.at] == q then 1 else 0
  }

  /** In every run each notify on the semaphore wakes the loop once or is still counted. */
  lemma {:induction false} NotifiesCount(acts: seq<Action>)
    ensures Run(acts).count + Woken(acts) == Notified(acts)
  {
    if acts != [] { NotifiesCount(acts[..|acts| - 1]); }
  }

  /** In every run each deferred event was processed once or is still queued. */
  lemma {:induction false} EventsConserved(acts: seq<Action>, q: Queue)
    ensures Run(acts).queued[q] + Processed(acts, q) == Deferred(acts, q)
  {
    if acts != [] { EventsConserved(acts[..|acts| - 1], q); }
  }

  /** What a pass at each position has still to visit: the hierarchy's queues come first and are visited again after the
      session's, so what a session event defers to the hierarchy is still processed in the same pass. */
  lemma StillVisited(at: nat, q: Queue)
    ensures Ahead(Draining(at), q) <==>
              match q
              case HierarchyRouter => at <= 7 case Hierarchy => at <= 8 case HierarchySync => at <= 9
              case Session => at <= 3 case Compute => at <= 4 case SessionSync => at <= 5 case SessionRouter => at <= 6
              case Log => at <= 10
  {
    var last := match q
      case HierarchyRouter => 7 case Hierarchy => 8 case HierarchySync => 9 case Session => 3
      case Compute => 4 case SessionSync => 5 case SessionRouter => 6 case Log => 10;
    assert PASS[last] == q;
  }

  /** The loop takes the hierarchy's queues, then the session's, then the compute events, then what is left: while one
      queue holds an event, the loop stays with it, and then it goes on to the next, at the end back to wait. */
  lemma VisitOrder(s: State)
    requires s.loop.Draining? && s.loop.at < |PASS| && LOOP !in s.pending
    ensures |PASS| == 11 && PASS[..3] == [HierarchyRouter, Hierarchy, HierarchySync] && PASS[7..10] == PASS[..3]
    ensures PASS[3..7] == [Session, Compute, SessionSync, SessionRouter] && PASS[10] == Log
    ensures PASS[s.loop.at] in s.queued ==>
              LoopStep(s) == s.(queued := s.queued - multiset{PASS[s.loop.at]})
    ensures PASS[s.loop.at] !in s.queued ==>
              LoopStep(s) == s.(loop := if s.loop.at == 10 then Waiting else Draining(s.loop.at + 1))
  {}

  // ---------------------------------------------------------------- a pass empties what it finds

  /** What the loop does next when nobody else moves and its own handlers defer nothing. */
  function LoopStep(s: State): State {
    if Enabled(s, Dequeue) then Step(s, Dequeue)
    else if Enabled(s, Next) then Step(s, Next)
    else Step(s, Wake)
  }

  function LoopRun(s: State, n: nat): State
    decreases n
  {
    if n == 0 then s else LoopRun(LoopStep(s), n - 1)
  }

  lemma {:induction false} LoopRunTwice(s: State, m: nat, n: nat)
    ensures LoopRun(LoopRun(s, m), n) == LoopRun(s, m + n)
    decreases m
  {
    hide LoopStep;
    if m > 0 { LoopRunTwice(LoopStep(s), m - 1, n); }
  }

  lemma DrainStep(s: State, t: State)
    requires s.loop.Draining? && s.loop.at < |PASS| && LOOP !in s.pending && t == LoopStep(s)
    ensures t.count == s.count && t.pending == s.pending && t.queued <= s.queued
    ensures PASS[s.loop.at] in s.queued ==> t.loop == s.loop && |t.queued| < |s.queued|
    ensures PASS[s.loop.at] !in s.queued ==>
              t.queued == s.queued && t.loop == if s.loop.at + 1 < |PASS| then Draining(s.loop.at + 1) else Waiting
  {}

  lemma NotAhead(q: Queue)
    ensures !Ahead(Waiting, q)
  {}

  lemma AheadNext(at: nat, q: Queue)
    requires at < |PASS| && Ahead(Draining(at), q)
    ensures PASS[at] == q || (at + 1 < |PASS| && Ahead(Draining(at + 1), q))
  {}

  /** Left alone, a draining loop empties every queue it has still to visit and goes back to wait. */
  lemma {:induction false} PassDrains(s: State) returns (n: nat)
    requires s.loop.Draining? && s.loop.at < |PASS| && LOOP !in s.pending
    ensures var t := LoopRun(s, n);
            && t.loop == Waiting && t.count == s.count && t.pending == s.pending && t.queued <= s.queued
            && forall q :: Ahead(s.loop, q) ==> q !in t.queued
    decreases |PASS| - s.loop.at, |s.queued|
  {
    hide LoopStep, Ahead, Wakes;
    var t := LoopStep(s);
    DrainStep(s, t);
    var m := 0;
    if t.loop.Draining? { m := PassDrains(t); }
    n := m + 1;
    var u := LoopRun(t, m);
    assert LoopRun(s, n) == u;
    forall q | Ahead(s.loop, q) ensures q !in u.queued { AheadNext(s.loop.at, q); }
  }

  lemma WokenDrains(s: State) returns (n: nat)
    requires s.loop.Waiting? && s.count > 0 && LOOP !in s.pending
    ensures forall q :: q !in LoopRun(s, n).queued
  {
    var t := LoopStep(s);
    var m := PassDrains(t);
    n := m + 1;
    assert LoopRun(s, n) == LoopRun(t, m);
    forall q ensures q !in LoopRun(t, m).queued { FirstPassCovers(q); }
  }

  /** From every reachable state in which no defer is half done, the loop alone empties every queue that can wake it. */
  lemma EventsAreProcessed(acts: seq<Action>) returns (n: nat)
    requires Run(acts).pending == map[]
    ensures forall q :: Wakes(q) ==> q !in LoopRun(Run(acts), n).queued
  {
    hide Run, LoopStep, Ahead;
    var s := Run(acts);
    InvAlways(acts);
    n := 0;
    if s.loop.Draining? { n := PassDrains(s); }
    var t := LoopRun(s, n);
    forall q | Wakes(q) && t.count == 0 ensures q !in t.queued {
      assert q in s.queued ==> Covered(s, q);
      assert s.loop.Waiting? ==> !Ahead(s.loop, q) by { NotAhead(q); }
    }
    if t.count > 0 {
      var m := WokenDrains(t);
      LoopRunTwice(s, n, m);
      n := n + m;
    }
  }
}
