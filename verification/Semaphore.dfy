/**
 The concurrency limiter. A caller that finds no permit queues; a finishing caller gives its
 permit back and wakes the head of the queue, which then competes again, so a newcomer may take
 the permit first. The results say that this barging never exceeds the limit and loses nobody.
 */
module Semaphore {
  import opened Wrappers

  /** The two fields: free permits, and the callers parked in the queue. */
  datatype Permits = Permits(count: int, queue: seq<nat>)

  function Limit(max: int): int {
    if max > 1 then max else 1
  }

  /** A caller asks for a permit; it runs (true) or parks itself at the end of the queue. */
  function Ask(p: Permits, caller: nat): (bool, Permits) {
    if p.count > 0 then (true, p.(count := p.count - 1))
    else (false, p.(queue := p.queue + [caller]))
  }

  /** A running caller ends: its permit is free again and the head of the queue is woken. */
  function GiveBack(p: Permits): (Option<nat>, Permits) {
    if p.queue == [] then (None, p.(count := p.count + 1))
    else (Some(p.queue[0]), Permits(p.count + 1, p.queue[1..]))
  }

  class Semaphore {
    var count: int
    var queue: seq<nat>

    function View(): Permits
      reads this
    {
      Permits(count, queue)
    }

    constructor (max: int)
      ensures View() == Permits(Limit(max), [])
    {
      count := if max > 1 then max else 1;
      queue := [];
    }

    /** The part of `with` before the wrapped call, or before the wait. */
    method Enter(caller: nat) returns (running: bool)
      modifies this
      ensures (running, View()) == Ask(old(View()), caller)
    {
      if count > 0 {
        count := count - 1;
        return true;
      }
      queue := queue + [caller];
      return false;
    }

    /** The `finally` block: whatever the wrapped call did. */
    method Leave() returns (woken: Option<nat>)
      modifies this
      ensures (woken, View()) == GiveBack(old(View()))
    {
      count := count + 1;
      if queue == [] {
        return None;
      }
      woken := Some(queue[0]);
      queue := queue[1..];
    }
  }

  // ---------- All interleavings ----------

  datatype World = World(permits: Permits, running: set<nat>, woken: set<nat>, finished: set<nat>)

  datatype Event = Arrive(caller: nat) | Resume(caller: nat) | Finish(caller: nat)

  ghost function Start(max: int): World {
    World(Permits(Limit(max), []), {}, {}, {})
  }

  ghost function Callers(w: World): set<nat> {
    (set c | c in w.permits.queue) + w.running + w.woken + w.finished
  }

  ghost predicate Enabled(w: World, e: Event) {
    match e
    case Arrive(c) => c !in Callers(w)
    case Resume(c) => c in w.woken
    case Finish(c) => c in w.running
  }

  ghost function Apply(w: World, e: Event): World
    requires Enabled(w, e)
  {
    match e
    case Arrive(c) =>
      var (runs, permits) := Ask(w.permits, c);
      w.(permits := permits, running := if runs then w.running + {c} else w.running)
    case Resume(c) =>
      var (runs, permits) := Ask(w.permits, c);
      w.(permits := permits, running := if runs then w.running + {c} else w.running, woken := w.woken - {c})
    case Finish(c) =>
      var (next, permits) := GiveBack(w.permits);
      World(permits, w.running - {c}, if next.Some? then w.woken + {next.value} else w.woken, w.finished + {c})
  }

  ghost predicate ValidRun(w: World, es: seq<Event>)
    decreases |es|
  {
    es == [] || (Enabled(w, es[0]) && ValidRun(Apply(w, es[0]), es[1..]))
  }

  ghost function RunFrom(w: World, es: seq<Event>): World
    requires ValidRun(w, es)
    decreases |es|
  {
    if es == [] then w else RunFrom(Apply(w, es[0]), es[1..])
  }

  ghost predicate Distinct(q: seq<nat>) {
    forall i, j :: 0 <= i < j < |q| ==> q[i] != q[j]
  }

  ghost predicate Apart(q: seq<nat>, s: set<nat>) {
    forall i :: 0 <= i < |q| ==> q[i] !in s
  }

  /** Permits are conserved, and a waiter implies enough wake-ups under way. */
  ghost predicate Counted(w: World, limit: int) {
    && limit >= 1
    && w.permits.count >= 0
    && |w.running| + w.permits.count == limit
    && (w.permits.queue != [] ==> w.permits.count <= |w.woken|)
  }

  /** Every caller is in one place. */
  ghost predicate Placed(w: World) {
    var q := w.permits.queue;
    && Distinct(q)
    && Apart(q, w.running) && Apart(q, w.woken) && Apart(q, w.finished)
    && w.running !! w.woken && w.running !! w.finished && w.woken !! w.finished
  }

  ghost predicate Inv(w: World, limit: int) {
    Counted(w, limit) && Placed(w)
  }

  lemma ArriveKeepsInv(w: World, e: Event, limit: int)
    requires Inv(w, limit) && Enabled(w, e) && e.Arrive?
    ensures Inv(Apply(w, e), limit)
  {
    var c, q := e.caller, w.permits.queue;
    assert c !in q && c !in w.running && c !in w.woken && c !in w.finished;
    AppendStaysDistinct(q, c);
    ArriveKeepsPlaces(w, e, c);
  }

  lemma ArriveKeepsPlaces(w: World, e: Event, c: nat)
    requires Placed(w) && Enabled(w, e) && e == Arrive(c)
    requires c !in w.permits.queue && c !in w.running && c !in w.woken && c !in w.finished
    ensures Placed(Apply(w, e))
  {
    AppendStaysDistinct(w.permits.queue, c);
  }

  /** Adding one newcomer at the end keeps the queue free of duplicates. */
  lemma AppendStaysDistinct(q: seq<nat>, c: nat)
    requires Distinct(q) && c !in q
    ensures Distinct(q + [c])
  {
  }

  lemma ResumeKeepsInv(w: World, e: Event, limit: int)
    requires Inv(w, limit) && Enabled(w, e) && e.Resume?
    ensures Inv(Apply(w, e), limit)
  {
    assert e.caller !in w.permits.queue;
  }

  lemma FinishKeepsInv(w: World, e: Event, limit: int)
    requires Inv(w, limit) && Enabled(w, e) && e.Finish?
    ensures Inv(Apply(w, e), limit)
  {
    var q := w.permits.queue;
    var w' := Apply(w, e);
    assert e.caller !in q;
    if q != [] {
      assert q[0] !in w.woken && q[0] !in w.running && q[0] !in w.finished;
      assert |w'.woken| == |w.woken| + 1;
    }
    assert |w'.running| == |w.running| - 1;
    assert forall i :: 0 <= i < |w'.permits.queue| ==>
        w'.permits.queue[i] == q[i + 1] && q[i + 1] != q[0] && q[i + 1] != e.caller;
  }

  lemma StepKeepsInv(w: World, e: Event, limit: int)
    requires Inv(w, limit) && Enabled(w, e)
    ensures Inv(Apply(w, e), limit)
  {
    match e {
      case Arrive(_) => ArriveKeepsInv(w, e, limit);
      case Resume(_) => ResumeKeepsInv(w, e, limit);
      case Finish(_) => FinishKeepsInv(w, e, limit);
    }
  }

  /** Only arrivals add callers and nothing removes one. */
  lemma StepKeepsCallers(w: World, e: Event)
    requires Enabled(w, e)
    ensures Callers(Apply(w, e)) == Callers(w) + (if e.Arrive? then {e.caller} else {})
  {
    var q, q' := w.permits.queue, Apply(w, e).permits.queue;
    if e.Finish? && q != [] {
      assert forall c :: c in q <==> c == q[0] || c in q' by {
        assert q == [q[0]] + q';
      }
    }
  }

  lemma {:induction false} RunsKeepInv(w: World, es: seq<Event>, limit: int)
    requires Inv(w, limit) && ValidRun(w, es)
    ensures Inv(RunFrom(w, es), limit)
    decreases |es|
  {
    if es == [] {
    } else {
      StepKeepsInv(w, es[0], limit);
      RunsKeepInv(Apply(w, es[0]), es[1..], limit);
    }
  }

  /**
   In every reachable state, barging included: running and free permits add up to the limit, which
   is reached while callers wait and none of them is woken; and a waiter always has a running caller
   or a woken one to move it on.
   */
  lemma LimitAndNoStranding(max: int, es: seq<Event>)
    requires ValidRun(Start(max), es)
    ensures var w := RunFrom(Start(max), es);
            && |w.running| + w.permits.count == (if max >= 1 then max else 1)
            && |w.running| <= (if max >= 1 then max else 1)
            && (w.permits.queue != [] ==> w.permits.count <= |w.woken|)
            && (w.permits.queue != [] && w.woken == {} ==> |w.running| == if max >= 1 then max else 1)
            && (w.permits.queue != [] ==> w.running != {} || w.woken != {})
  {
    RunsKeepInv(Start(max), es, Limit(max));
  }

  // ---------- First parked, first woken ----------

  /** The caller that an event parks. */
  ghost function ParkedBy(w: World, e: Event): seq<nat>
    requires Enabled(w, e)
  {
    if !e.Finish? && e.caller !in Apply(w, e).running then [e.caller] else []
  }

  /** The caller that an event wakes. */
  ghost function WokenBy(w: World, e: Event): seq<nat>
    requires Enabled(w, e)
  {
    if e.Finish? && GiveBack(w.permits).0.Some? then [GiveBack(w.permits).0.value] else []
  }

  ghost function ParkedIn(w: World, es: seq<Event>): seq<nat>
    requires ValidRun(w, es)
    decreases |es|
  {
    if es == [] then [] else ParkedBy(w, es[0]) + ParkedIn(Apply(w, es[0]), es[1..])
  }

  ghost function WokenIn(w: World, es: seq<Event>): seq<nat>
    requires ValidRun(w, es)
    decreases |es|
  {
    if es == [] then [] else WokenBy(w, es[0]) + WokenIn(Apply(w, es[0]), es[1..])
  }

  lemma AskParksLast(w: World, e: Event)
    requires Enabled(w, e) && !e.Finish? && e.caller !in w.running
    ensures WokenBy(w, e) == []
    ensures w.permits.queue + ParkedBy(w, e) == Apply(w, e).permits.queue
  {
  }

  lemma FinishWakesFirst(w: World, e: Event)
    requires Enabled(w, e) && e.Finish?
    ensures ParkedBy(w, e) == []
    ensures w.permits.queue == WokenBy(w, e) + Apply(w, e).permits.queue
    ensures forall c <- WokenBy(w, e) :: c in Apply(w, e).woken
  {
  }

  lemma StepWakesInOrder(w: World, e: Event, limit: int)
    requires Inv(w, limit) && Enabled(w, e)
    ensures w.permits.queue + ParkedBy(w, e) == WokenBy(w, e) + Apply(w, e).permits.queue
    ensures forall c <- WokenBy(w, e) :: c in Apply(w, e).woken
  {
    if e.Finish? {
      FinishWakesFirst(w, e);
    } else {
      AskParksLast(w, e);
    }
  }

  /**
   Callers are woken in exactly the order in which they were parked: those waiting at the start and
   those parked since are, in order, those woken since and those still waiting.
   */
  lemma {:induction false} WokenInOrder(w: World, es: seq<Event>, limit: int)
    requires Inv(w, limit) && ValidRun(w, es)
    ensures w.permits.queue + ParkedIn(w, es) == WokenIn(w, es) + RunFrom(w, es).permits.queue
    decreases |es|
  {
    if es == [] {
    } else {
      var w1 := Apply(w, es[0]);
      StepKeepsInv(w, es[0], limit);
      StepWakesInOrder(w, es[0], limit);
      WokenInOrder(w1, es[1..], limit);
      QueuesJoin(w.permits.queue, ParkedBy(w, es[0]), WokenBy(w, es[0]), w1.permits.queue,
                 ParkedIn(w1, es[1..]), WokenIn(w1, es[1..]), RunFrom(w, es).permits.queue);
    }
  }

  lemma QueuesJoin(q: seq<nat>, in1: seq<nat>, out1: seq<nat>, q1: seq<nat>, in2: seq<nat>, out2: seq<nat>,
                   q2: seq<nat>)
    requires q + in1 == out1 + q1 && q1 + in2 == out2 + q2
    ensures q + (in1 + in2) == (out1 + out2) + q2
  {
    assert q + (in1 + in2) == (q + in1) + in2;
    assert (out1 + q1) + in2 == out1 + (q1 + in2);
    assert out1 + (out2 + q2) == (out1 + out2) + q2;
  }

  // ---------- Nobody is lost ----------

  /** What is left to do: a caller still has to finish, and a woken one may have to ask again. */
  ghost function Remaining(w: World): nat {
    2 * (|w.permits.queue| + |w.running| + |w.woken|) + |w.woken|
  }

  lemma StepDoesWork(w: World, e: Event, limit: int)
    requires Inv(w, limit) && Enabled(w, e) && !e.Arrive?
    ensures Remaining(Apply(w, e)) < Remaining(w)
  {
  }

  lemma {:induction false} DrainBounded(w: World, es: seq<Event>, limit: int)
    requires Inv(w, limit) && ValidRun(w, es)
    requires forall i :: 0 <= i < |es| ==> !es[i].Arrive?
    ensures |es| + Remaining(RunFrom(w, es)) <= Remaining(w)
    decreases |es|
  {
    if es == [] {
    } else {
      StepKeepsInv(w, es[0], limit);
      StepDoesWork(w, es[0], limit);
      assert forall i :: 0 <= i < |es[1..]| ==> es[1..][i] == es[i + 1];
      DrainBounded(Apply(w, es[0]), es[1..], limit);
    }
  }

  lemma {:induction false} DrainKeepsCallers(w: World, es: seq<Event>)
    requires ValidRun(w, es)
    requires forall i :: 0 <= i < |es| ==> !es[i].Arrive?
    ensures Callers(RunFrom(w, es)) == Callers(w)
    decreases |es|
  {
    if es == [] {
    } else {
      StepKeepsCallers(w, es[0]);
      assert forall i :: 0 <= i < |es[1..]| ==> es[1..][i] == es[i + 1];
      DrainKeepsCallers(Apply(w, es[0]), es[1..]);
    }
  }

  /** Nothing but an arrival can happen. */
  ghost predicate AtRest(w: World) {
    forall e :: Enabled(w, e) ==> e.Arrive?
  }

  /**
   Once arrivals stop, every schedule comes to rest within `Remaining` steps, and at rest every
   caller there ever was has finished and every permit is back. No wake-up is lost.
   */
  lemma EveryCallerFinishes(max: int, es: seq<Event>, drain: seq<Event>)
    requires ValidRun(Start(max), es)
    requires var w := RunFrom(Start(max), es);
             && ValidRun(w, drain)
             && (forall i :: 0 <= i < |drain| ==> !drain[i].Arrive?)
             && AtRest(RunFrom(w, drain))
    ensures var w := RunFrom(Start(max), es);
            var end := RunFrom(w, drain);
            && |drain| <= Remaining(w)
            && end.finished == Callers(w)
            && end.permits == Permits(Limit(max), [])
  {
    var w := RunFrom(Start(max), es);
    RunsKeepInv(Start(max), es, Limit(max));
    DrainBounded(w, drain, Limit(max));
    DrainKeepsCallers(w, drain);
    RunsKeepInv(w, drain, Limit(max));
    RestIsEmpty(RunFrom(w, drain), Limit(max));
  }

  /** At rest nobody runs, is woken or waits, so every permit is free. */
  lemma RestIsEmpty(w: World, limit: int)
    requires Inv(w, limit) && AtRest(w)
    ensures w.running == {} && w.woken == {} && w.permits == Permits(limit, []) && Callers(w) == w.finished
  {
    if c :| c in w.running {
      assert Enabled(w, Finish(c));
    }
    if c :| c in w.woken {
      assert Enabled(w, Resume(c));
    }
  }

  /** Barging is real: a woken caller can lose its permit to a newcomer and be queued behind another. */
  lemma WokenCallerCanBeOvertaken()
    ensures var es := [Arrive(0), Arrive(1), Arrive(2), Finish(0), Arrive(3), Resume(1)];
            && ValidRun(Start(1), es)
            && RunFrom(Start(1), es).permits.queue == [2, 1]
  {
    var w0 := Start(1);
    var w1 := Apply(w0, Arrive(0));
    var w2 := Apply(w1, Arrive(1));
    var w3 := Apply(w2, Arrive(2));
    assert w3.permits.queue == [1, 2];
    var w4 := Apply(w3, Finish(0));
    assert w4.permits.queue == [2];
    var w5 := Apply(w4, Arrive(3));
    var w6 := Apply(w5, Resume(1));
    assert w6.permits.queue == [2, 1];
    assert ValidRun(w6, []) && RunFrom(w6, []) == w6;
    assert ValidRun(w5, [Resume(1)]) && RunFrom(w5, [Resume(1)]) == w6;
    assert [Arrive(3), Resume(1)][1..] == [Resume(1)];
    assert ValidRun(w4, [Arrive(3), Resume(1)]) && RunFrom(w4, [Arrive(3), Resume(1)]) == w6;
    assert [Finish(0), Arrive(3), Resume(1)][1..] == [Arrive(3), Resume(1)];
    assert ValidRun(w3, [Finish(0), Arrive(3), Resume(1)]) && RunFrom(w3, [Finish(0), Arrive(3), Resume(1)]) == w6;
    var es2 := [Arrive(2), Finish(0), Arrive(3), Resume(1)];
    assert es2[1..] == [Finish(0), Arrive(3), Resume(1)];
    assert ValidRun(w2, es2) && RunFrom(w2, es2) == w6;
    var es1 := [Arrive(1), Arrive(2), Finish(0), Arrive(3), Resume(1)];
    assert es1[1..] == es2;
    assert ValidRun(w1, es1) && RunFrom(w1, es1) == w6;
    var es := [Arrive(0), Arrive(1), Arrive(2), Finish(0), Arrive(3), Resume(1)];
    assert es[1..] == es1;
  }
}
