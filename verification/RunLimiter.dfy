/** The limit on engine runs as a protocol: any number of threads, each taking
    one turn under the lock at a time, in any order. */
module RunLimits {
  import opened Prelude

  type Thread = nat

  // What one thread is doing: waiting on the condition variable, or running.
  datatype Stage = Queued(urgent: bool) | Running(urgent: bool)

  datatype Queue = Queue(limit: nat, running: nat, waitingUrgent: nat)

  datatype Outcome = Started | Cancelled | Waits

  /** What a thread is let through by. */
  predicate Open(q: Queue, urgent: bool) {
    q.running < q.limit && (urgent || q.waitingUrgent == 0)
  }

  /** One turn of the waiting loop, under the lock. */
  function Turn(q: Queue, urgent: bool, queued: bool, cancelled: bool): (Queue, Outcome) {
    var left := if queued && urgent then q.(waitingUrgent := SaturatingSub(q.waitingUrgent, 1)) else q;
    if Open(q, urgent) then (left.(running := q.running + 1), Started)
    else if cancelled then (left, Cancelled)
    else if queued || !urgent then (q, Waits)
    else (q.(waitingUrgent := q.waitingUrgent + 1), Waits)
  }

  class RunQueue {
    const limit: nat
    var running: nat
    var waitingUrgent: nat

    function State(): Queue
      reads this
    {
      Queue(limit, running, waitingUrgent)
    }

    constructor (limit: nat)
      ensures State() == Queue(limit, 0, 0)
    {
      this.limit := limit;
      running, waitingUrgent := 0, 0;
    }

    /** From taking the lock to giving it up, in acquiring or in waiting. */
    method TakeTurn(urgent: bool, queued: bool, cancelled: bool) returns (o: Outcome)
      requires queued && urgent ==> waitingUrgent > 0
      modifies this
      ensures (State(), o) == Turn(old(State()), urgent, queued, cancelled)
    {
      if running < limit && (urgent || waitingUrgent == 0) {
        if queued && urgent {
          waitingUrgent := waitingUrgent - 1;
        }
        running := running + 1;
        return Started;
      }
      if cancelled {
        if queued && urgent {
          waitingUrgent := waitingUrgent - 1;
        }
        return Cancelled;
      }
      if !queued && urgent {
        waitingUrgent := waitingUrgent + 1;
      }
      return Waits;
    }

    method DropPermit()
      requires running > 0
      modifies this
      ensures State() == old(State()).(running := old(running) - 1)
    {
      running := running - 1;
    }
  }

  // ---- all the threads ----

  datatype System = System(queue: Queue, threads: map<Thread, Stage>)

  datatype Step =
    | Arrive(t: Thread, urgent: bool, cancelled: bool)
    // Woken, or timed out: either way it looks again.
    | Wake(t: Thread, cancelled: bool)
    | Finish(t: Thread)

  predicate Enabled(s: System, step: Step) {
    match step
    case Arrive(t, _, _) => t !in s.threads
    case Wake(t, _) => t in s.threads && s.threads[t].Queued?
    case Finish(t) => t in s.threads && s.threads[t].Running?
  }

  function Moved(s: System, t: Thread, urgent: bool, queued: bool, cancelled: bool): System {
    var (q, o) := Turn(s.queue, urgent, queued, cancelled);
    System(q, match o
              case Started => s.threads[t := Running(urgent)]
              case Cancelled => s.threads - {t}
              case Waits => s.threads[t := Queued(urgent)])
  }

  function Next(s: System, step: Step): System
    requires Enabled(s, step)
  {
    match step
    case Arrive(t, urgent, cancelled) => Moved(s, t, urgent, false, cancelled)
    case Wake(t, cancelled) => Moved(s, t, s.threads[t].urgent, true, cancelled)
    case Finish(t) =>
      System(s.queue.(running := SaturatingSub(s.queue.running, 1)), s.threads - {t})
  }

  predicate Legal(s: System, steps: seq<Step>)
    decreases |steps|
  {
    steps == [] || (Enabled(s, steps[0]) && Legal(Next(s, steps[0]), steps[1..]))
  }

  function Play(s: System, steps: seq<Step>): System
    requires Legal(s, steps)
    decreases |steps|
  {
    if steps == [] then s else Play(Next(s, steps[0]), steps[1..])
  }

  function Permits(s: System): set<Thread> {
    set t | t in s.threads && s.threads[t].Running?
  }

  function UrgentWaiters(s: System): set<Thread> {
    set t | t in s.threads && s.threads[t] == Queued(true)
  }

  /** The counters are what they stand for. */
  ghost predicate Inv(s: System) {
    && s.queue.running == |Permits(s)| <= s.queue.limit
    && s.queue.waitingUrgent == |UrgentWaiters(s)|
  }

  lemma CountOne(a: set<Thread>, t: Thread)
    ensures |a + {t}| == if t in a then |a| else |a| + 1
    ensures |a - {t}| == if t in a then |a| - 1 else |a|
  {
    if t in a {
      assert a + {t} == a;
    } else {
      assert a - {t} == a;
    }
  }

  /** What becoming something else does to the two counted sets. */
  lemma Changed(s: System, t: Thread, after: map<Thread, Stage>)
    requires forall u | u != t :: (u in after <==> u in s.threads) && (u in after ==> after[u] == s.threads[u])
    ensures var s' := System(s.queue, after);
            && Permits(s') == (if t in after && after[t].Running? then Permits(s) + {t} else Permits(s) - {t})
            && UrgentWaiters(s')
               == if t in after && after[t] == Queued(true) then UrgentWaiters(s) + {t} else UrgentWaiters(s) - {t}
  {
  }

  lemma MoveKeeps(s: System, t: Thread, urgent: bool, queued: bool, cancelled: bool)
    requires Inv(s)
    requires if queued then t in s.threads && s.threads[t] == Queued(urgent) else t !in s.threads
    ensures Inv(Moved(s, t, urgent, queued, cancelled))
  {
    var s' := Moved(s, t, urgent, queued, cancelled);
    Changed(s, t, s'.threads);
    assert t !in Permits(s) && (t in UrgentWaiters(s) <==> queued && urgent);
    CountOne(Permits(s), t);
    CountOne(UrgentWaiters(s), t);
    hide Permits, UrgentWaiters;
    SameSets(s', s.queue);
  }

  lemma SameSets(s: System, q: Queue)
    ensures Permits(System(q, s.threads)) == Permits(s)
    ensures UrgentWaiters(System(q, s.threads)) == UrgentWaiters(s)
  {
  }

  lemma StepKeeps(s: System, step: Step)
    requires Inv(s) && Enabled(s, step)
    ensures Inv(Next(s, step)) && Next(s, step).queue.limit == s.queue.limit
  {
    match step {
      case Arrive(t, urgent, cancelled) => MoveKeeps(s, t, urgent, false, cancelled);
      case Wake(t, cancelled) => MoveKeeps(s, t, s.threads[t].urgent, true, cancelled);
      case Finish(t) =>
        var s' := Next(s, step);
        assert t in Permits(s) && Permits(s') == Permits(s) - {t};
        assert UrgentWaiters(s') == UrgentWaiters(s);
    }
  }

  function Begun(limit: nat): System { System(Queue(limit, 0, 0), map[]) }

  lemma {:induction false} RunKeeps(s: System, steps: seq<Step>)
    requires Inv(s) && Legal(s, steps)
    ensures Inv(Play(s, steps)) && Play(s, steps).queue.limit == s.queue.limit
    decreases |steps|
  {
    if steps != [] {
      StepKeeps(s, steps[0]);
      RunKeeps(Next(s, steps[0]), steps[1..]);
    }
  }

  /** Whatever the threads and however they interleave, the runs going on are
      never more than the limit, and the counters are exactly the permits held
      and the urgent threads queued, cancelled ones not among them. */
  lemma LimitHolds(limit: nat, steps: seq<Step>)
    requires Legal(Begun(limit), steps)
    ensures var s := Play(Begun(limit), steps);
            && |Permits(s)| <= limit
            && s.queue == Queue(limit, |Permits(s)|, |UrgentWaiters(s)|)
  {
    assert Permits(Begun(limit)) == {} && UrgentWaiters(Begun(limit)) == {};
    RunKeeps(Begun(limit), steps);
  }

  /** No run that nobody waits on starts while an urgent one is queued. */
  lemma UrgentFirst(limit: nat, steps: seq<Step>, step: Step)
    requires Legal(Begun(limit), steps) && Enabled(Play(Begun(limit), steps), step)
    ensures var s := Play(Begun(limit), steps);
            forall t | t in Next(s, step).threads && Next(s, step).threads[t] == Running(false) ::
              (t in s.threads && s.threads[t] == Running(false)) || UrgentWaiters(s) == {}
  {
    LimitHolds(limit, steps);
  }

  /** With a slot free, some queued thread would be let through the moment it
      looks: an urgent one if there is any, and otherwise all of them. */
  lemma SomeoneCanGo(limit: nat, steps: seq<Step>, t: Thread)
    requires Legal(Begun(limit), steps)
    requires var s := Play(Begun(limit), steps);
             s.queue.running < limit && t in s.threads && s.threads[t].Queued?
    ensures var s := Play(Begun(limit), steps);
            exists w :: && w in s.threads && s.threads[w].Queued? && Open(s.queue, s.threads[w].urgent)
                        && Next(s, Wake(w, true)).threads[w].Running?
  {
    LimitHolds(limit, steps);
    var s := Play(Begun(limit), steps);
    if UrgentWaiters(s) == {} {
      assert Open(s.queue, s.threads[t].urgent);
      assert Next(s, Wake(t, true)).threads[t].Running?;
    } else {
      var w :| w in UrgentWaiters(s);
      assert Open(s.queue, s.threads[w].urgent);
      assert Next(s, Wake(w, true)).threads[w].Running?;
    }
  }

  /** A thread that arrives with a slot free and no urgent one queued starts at
      once, and an urgent one starts even ahead of those queued. */
  lemma ArrivalStarts(limit: nat, steps: seq<Step>, t: Thread, urgent: bool, cancelled: bool)
    requires Legal(Begun(limit), steps)
    requires var s := Play(Begun(limit), steps);
             && t !in s.threads && |Permits(s)| < limit
             && (urgent || forall w | w in s.threads :: s.threads[w] != Queued(true))
    ensures var s := Play(Begun(limit), steps);
            Next(s, Arrive(t, urgent, cancelled)).threads == s.threads[t := Running(urgent)]
  {
    LimitHolds(limit, steps);
    var s := Play(Begun(limit), steps);
    if !urgent {
      assert UrgentWaiters(s) == {};
    }
  }

  /** One that finds no slot waits in the queue, unless it is cancelled. */
  lemma ArrivalWaits(limit: nat, steps: seq<Step>, t: Thread, urgent: bool)
    requires Legal(Begun(limit), steps)
    requires var s := Play(Begun(limit), steps); t !in s.threads && |Permits(s)| == limit
    ensures var s := Play(Begun(limit), steps);
            && Next(s, Arrive(t, urgent, false)).threads == s.threads[t := Queued(urgent)]
            && Next(s, Arrive(t, urgent, true)).threads == s.threads
  {
    LimitHolds(limit, steps);
  }

  /** A queued thread that is cancelled either starts or leaves no trace. */
  lemma CancelLeaves(s: System, t: Thread)
    requires Inv(s) && t in s.threads && s.threads[t].Queued?
    ensures var after := Next(s, Wake(t, true));
            if Open(s.queue, s.threads[t].urgent)
            then after.threads == s.threads[t := Running(s.threads[t].urgent)]
            else && after.threads == s.threads - {t}
                 && UrgentWaiters(after) == UrgentWaiters(s) - {t}
                 && after.queue.waitingUrgent == |UrgentWaiters(s) - {t}|
  {
    StepKeeps(s, Wake(t, true));
  }
}
