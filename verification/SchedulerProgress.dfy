/** Deadlock freedom and termination: a stopping shell reaches its exit. */
module SchedulerProgress {
  import opened Options
  import opened Messages
  import opened Scheduler
  import opened SchedulerInv
  import opened SchedulerLanes

  function One(present: bool): nat { if present then 1 else 0 }

  /** Queued work, counted twice because a popped request can become active or held. */
  function Work(s: Shell): nat { 2 * |s.queue| + One(s.active.Some?) + One(s.held.Some?) }

  /** All work, with what still waits in the channels. */
  function Load(s: Shell): nat
    requires InRange(s)
  {
    3 * (|s.sent| - s.order) + (|s.commands| - s.applied) + Work(s)
  }

  function Rank(p: Point): nat {
    match p
    case Head => 4
    case Controls => 3
    case Check => 2
    case Select => 1
    case Exited(_) => 0
  }

  /** The task steps an execution still takes. */
  function TaskSteps(a: Active): nat {
    match a.phase
    case Starting(pre) => |pre| + 5
    case Running => 4
    case Ending(post, _) => |post|
  }

  function TaskLeft(s: Shell): nat { if s.active.Some? then TaskSteps(s.active.value) else 0 }

  function Measure(s: Shell): nat
    requires InRange(s)
  {
    16 * Load(s) + Rank(s.point) + TaskLeft(s)
  }

  /** A step of the shell or of its execution task, not an arrival. */
  predicate Internal(a: Step) { !a.Send? && !a.Command? }

  /** The active task has at most seven steps left. */
  ghost predicate ShortTask(s: Shell) { TaskLeft(s) <= 7 }

  lemma {:induction false} SpanSize(lo: nat, hi: nat)
    requires lo <= hi
    ensures |Span(lo, hi)| == hi - lo
    decreases hi
  {
    if lo < hi { SpanSize(lo, hi - 1); }
  }

  lemma SubsetSize(a: set<nat>, b: set<nat>)
    requires a <= b
    ensures |a| <= |b|
  {
    assert b == a + (b - a);
  }

  lemma DrainWork(s: Shell)
    requires InRange(s)
    ensures |DrainIncoming(s).queue| == |s.queue| + |s.sent| - s.order
  {
    SpanSize(s.order, |s.sent|);
    assert s.queue !! Span(s.order, |s.sent|);
  }

  /** Aborting never adds work. */
  lemma AbortWork(s: Shell)
    requires InRange(s)
    ensures |AbortPending(s).queue| <= |s.queue| + |s.sent| - s.order
    ensures AbortPending(s).order == |s.sent| == |AbortPending(s).sent|
    ensures AbortPending(s).active == s.active && AbortPending(s).held == s.held
    ensures AbortPending(s).commands == s.commands && AbortPending(s).applied == s.applied
    ensures AbortPending(s).point == s.point && TaskLeft(AbortPending(s)) == TaskLeft(s)
    ensures Load(AbortPending(s)) <= Load(s)
  {
    DrainWork(s);
    SubsetSize(AbortPending(s).queue, DrainIncoming(s).queue);
  }

  lemma EndHoldWork(s: Shell, status: string)
    requires InRange(s) && s.held.Some?
    ensures Load(EndHold(s, status)) < Load(s) && TaskLeft(EndHold(s, status)) == TaskLeft(s)
    ensures InRange(EndHold(s, status))
  {
  }

  lemma FailHoldWork(s: Shell, status: string)
    requires InRange(s) && s.held.Some?
    ensures Load(FailHold(s, status)) < Load(s) && TaskLeft(FailHold(s, status)) == TaskLeft(s)
    ensures FailHold(s, status).point == s.point
  {
    EndHoldWork(s, status);
    AbortWork(EndHold(s, status));
  }

  lemma PokeWork(s: Shell)
    requires InRange(s)
    ensures
      var i := s.(interrupting := true, active := Poke(s.active));
      var h := if i.held.Some? then EndHold(i, "interrupt") else i;
      InRange(h) && Load(h) <= Load(s) && TaskLeft(h) == TaskLeft(s) && h.point == s.point
  {
  }

  lemma InterruptWork(s: Shell)
    requires InRange(s)
    ensures Load(ApplyInterrupt(s)) <= Load(s) && TaskLeft(ApplyInterrupt(s)) == TaskLeft(s)
    ensures ApplyInterrupt(s).point == s.point
  {
    PokeWork(s);
    var i := s.(interrupting := true, active := Poke(s.active));
    AbortWork(if i.held.Some? then EndHold(i, "interrupt") else i);
  }

  lemma ControlWork(s: Shell)
    requires InRange(s) && s.applied < |s.commands|
    ensures Load(ApplyControl(s)) < Load(s) && TaskLeft(ApplyControl(s)) == TaskLeft(s)
    ensures ApplyControl(s).point == s.point
  {
    var r := s.(applied := s.applied + 1);
    assert Load(r) < Load(s);
    match s.commands[s.applied] {
      case Release(msgId, status) => if Releases(s, msgId) { FailHoldWork(r, status); }
      case Interrupt(_) => InterruptWork(r);
      case Stop =>
    }
  }

  /** Less load, or the same load further down the loop, is progress. */
  lemma Drops(s: Shell, t: Shell)
    requires InRange(s) && InRange(t) && ShortTask(t)
    requires Load(t) < Load(s) || (Load(t) <= Load(s) && Rank(t.point) < Rank(s.point) && TaskLeft(t) <= TaskLeft(s))
    ensures Measure(t) < Measure(s)
  {
  }

  lemma CompleteWork(s: Shell)
    requires InRange(s) && s.active.Some? && Finished(s.active.value) && ShortTask(s)
    ensures Complete(s).point == Exited(Crashed) || Load(Complete(s)) < Load(s)
    ensures Load(Complete(s)) <= Load(s) && TaskLeft(Complete(s)) == 0
    ensures Complete(s).point != Exited(Crashed) ==> Complete(s).point == s.point
  {
    if s.active.value.phase.outcome != Broke(Closed) {
      var t := s.(active := None);
      assert Load(t) < Load(s);
      AbortWork(t);
    }
  }

  lemma SettleWork(s: Shell)
    requires InRange(s) && ShortTask(s) && s.point.Check?
    ensures Load(Settle(s)) <= Load(s) && TaskLeft(Settle(s)) <= TaskLeft(s)
    ensures Settle(s).point.Exited? || Settle(s).point.Check?
  {
    if s.active.Some? && Finished(s.active.value) { CompleteWork(s); }
  }

  lemma HandleWork(s: Shell, n: nat, service: Service)
    requires InRange(s) && Eligible(s, n) && ShortTask(s)
    ensures Load(Handle(s, n, service)) < Load(s) && ShortTask(Handle(s, n, service))
  {
    var p := Popped(s, n);
    assert |p.queue| == |s.queue| - 1;
    assert Load(p) == Load(s) - 2;
    if IsExecute(s, n) && !s.interrupting && !s.sent[n].hasCode {
      AbortWork(p.(log := s.log + RefuseScript(n, "MissingField", s.count)));
    }
  }

  lemma ProceedWork(s: Shell, service: Service)
    requires InRange(s) && ShortTask(s) && s.point.Check?
    ensures
      var t := Proceed(s, service);
      ShortTask(t) && (Load(t) < Load(s) || (Load(t) <= Load(s) && Rank(t.point) < Rank(s.point) && TaskLeft(t) <= TaskLeft(s)))
  {
    if Runnable(s).Some? { HandleWork(s, Runnable(s).value, service); }
  }

  lemma PassWork(s: Shell, service: Service)
    requires InRange(s) && ShortTask(s) && Enabled(s, Pass(service))
    ensures
      var t := Next(s, Pass(service));
      && InRange(t) && ShortTask(t)
      && (Load(t) < Load(s) || (Load(t) <= Load(s) && Rank(t.point) < Rank(s.point) && TaskLeft(t) <= TaskLeft(s)))
  {
    SettleWork(s);
    if !Settle(s).point.Exited? { ProceedWork(Settle(s), service); }
  }

  lemma TaskWork(s: Shell, a: Step)
    requires InRange(s) && ShortTask(s) && Enabled(s, a) && (a.TaskPublish? || a.TaskReturn?)
    ensures
      var t := Next(s, a);
      InRange(t) && ShortTask(t) && Load(t) == Load(s) && t.point == s.point && TaskLeft(t) < TaskLeft(s)
  {
  }

  lemma TimeoutWork(s: Shell)
    requires InRange(s) && s.held.Some?
    ensures Load(AbortPending(EndHold(s, "timeout"))) < Load(s)
    ensures TaskLeft(AbortPending(EndHold(s, "timeout"))) == TaskLeft(s)
  {
    EndHoldWork(s, "timeout");
    AbortWork(EndHold(s, "timeout"));
  }

  /** The steps of `select!`. */
  lemma WakeProgress(s: Shell, a: Step)
    requires InRange(s) && ShortTask(s) && Enabled(s, a) && (a.WakeIncoming? || a.WakeControl? || a.WakeDone? || a.WakeTimeout?)
    ensures InRange(Next(s, a)) && ShortTask(Next(s, a)) && Measure(Next(s, a)) < Measure(s)
  {
    match a {
      case WakeIncoming => assert |s.queue + {s.order}| == |s.queue| + 1;
      case WakeControl => ControlWork(s);
      case WakeDone => CompleteWork(s);
      case WakeTimeout => TimeoutWork(s);
    }
    Drops(s, Next(s, a));
  }

  lemma StepProgress(s: Shell, a: Step)
    requires InRange(s) && ShortTask(s) && Enabled(s, a) && Internal(a)
    ensures InRange(Next(s, a)) && ShortTask(Next(s, a)) && Measure(Next(s, a)) < Measure(s)
  {
    match a {
      case TaskPublish => TaskWork(s, a);
      case TaskReturn(_) => TaskWork(s, a);
      case TakeIncoming =>
        DrainWork(s);
        Drops(s, Next(s, a));
      case TakeControl =>
        if s.applied < |s.commands| { ControlWork(s); }
        Drops(s, Next(s, a));
      case Pass(service) =>
        PassWork(s, service);
        Drops(s, Next(s, a));
      case _ => WakeProgress(s, a);
    }
  }

  /** Handling a request reads no control, and nothing more from an empty channel. */
  lemma HandleFrame(s: Shell, n: nat, service: Service)
    requires InRange(s) && Eligible(s, n) && s.order == |s.sent|
    ensures
      var t := Handle(s, n, service);
      t.order == |t.sent| && t.commands == s.commands && t.applied == s.applied
  {
  }

  /** With nothing left in the channels, popping leaves strictly less work. */
  lemma PopLeavesLess(s: Shell, service: Service)
    requires InRange(s) && s.order == |s.sent| && ShortTask(s) && Runnable(s).Some?
    ensures Work(Handle(s, Runnable(s).value, service)) < Work(s)
  {
    HandleWork(s, Runnable(s).value, service);
    HandleFrame(s, Runnable(s).value, service);
  }

  /** So do completing an execution, and releasing or timing out a hold. */
  lemma FinishLeavesLess(s: Shell, status: string)
    requires InRange(s) && s.order == |s.sent|
    ensures s.active.Some? && Finished(s.active.value) && s.active.value.phase.outcome != Broke(Closed) ==>
              Work(Complete(s)) < Work(s)
    ensures s.held.Some? ==> Work(FailHold(s, status)) < Work(s)
  {
    if s.active.Some? { AbortWork(s.(active := None)); }
    if s.held.Some? { AbortWork(EndHold(s, status)); }
  }

  /** Deadlock freedom: a queue with nothing runnable waits for an active execution or for a hold,
      which has a deadline. */
  lemma BlockedWaitsForSomething(s: Shell)
    requires InRange(s) && s.queue != {} && Runnable(s).None?
    ensures s.active.Some? || s.held.Some?
    ensures forall n | n in s.queue :: IsExecute(s, n)
  {
    var n :| n in s.queue;
    assert !Eligible(s, n);
    assert forall m | m in s.queue :: !Eligible(s, m);
  }

  /** A step of the shell or of its task that can be taken now. */
  function Choice(s: Shell): Step {
    match s.point
    case Head => TakeIncoming
    case Controls => TakeControl
    case Check => Pass(Fine)
    case _ =>
      if s.active.Some? then
        if Finished(s.active.value) then WakeDone
        else if s.active.value.phase.Running? then TaskReturn(Returned(false))
        else TaskPublish
      else if s.held.Some? then WakeTimeout
      else if s.order < |s.sent| then WakeIncoming
      else WakeControl
  }

  /** A shell that has not returned can step, unless it waits for its first or next message; a
      stopping shell never waits for one. */
  lemma NeverStuck(s: Shell)
    requires Kept(s) && !s.point.Exited?
    ensures Internal(Choice(s))
    ensures Enabled(s, Choice(s)) || (s.point.Select? && Work(s) == 0 && s.order == |s.sent| && s.applied == |s.commands|)
    ensures s.stopping ==> Enabled(s, Choice(s))
  {
    if s.point.Select? && s.active.None? && s.held.None? {
      assert s.queue == {};
    }
  }
}
