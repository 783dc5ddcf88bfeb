/** The execution lane, the hold and the interrupt fence. */
module SchedulerLanes {
  import opened Options
  import opened Messages
  import opened Scheduler
  import opened SchedulerInv

  /** Behind the fence no execute request waits any more, none is held, and the active execution,
      if it started before the fence, has been sent an interrupt request. */
  ghost predicate Fenced(s: Shell) {
    && s.fence <= s.order && s.applied <= |s.commands|
    && (forall n | n in s.queue && IsExecute(s, n) :: n >= s.fence)
    && (s.held.Some? ==> s.held.value >= s.fence)
    && (s.active.Some? && s.active.value.n < s.fence ==> s.active.value.interrupts > 0)
    && (forall j | 0 <= j < |s.commands| && s.commands[j].Interrupt? :: s.commands[j].cut <= |s.sent|)
    && (forall j | 0 <= j < s.applied && s.commands[j].Interrupt? :: s.commands[j].cut <= s.fence)
  }

  /** Holds and the lane: what runs beside a hold is more urgent than the hold, an execution that
      was sent an interrupt is still known to be interrupted, and an interrupt ends the hold. */
  ghost predicate Lane(s: Shell)
    requires InRange(s)
  {
    && (s.active.Some? && s.held.Some? ==> s.sent[s.active.value.n].priority > s.sent[s.held.value].priority)
    && (s.active.Some? && s.active.value.interrupts > 0 ==> s.interrupting)
    && (s.interrupting ==> s.held.None?)
  }

  /** `select!` is reached only when nothing is runnable and the stop condition failed. */
  ghost predicate Waiting(s: Shell)
    requires InRange(s)
  {
    s.point.Select? ==>
      && (forall n | n in s.queue :: !Eligible(s, n))
      && (s.interrupting ==> s.active.Some?)
      && !(s.stopping && s.queue == {} && s.active.None? && s.held.None?)
  }

  /** A Stop exit leaves nothing queued, running or held. */
  ghost predicate ExitClean(s: Shell) {
    s.point == Exited(Stopped) ==> s.queue == {} && s.active.None? && s.held.None? && s.stopping
  }

  ghost predicate Guarded(s: Shell) { InRange(s) && Fenced(s) && Lane(s) }

  ghost predicate Kept(s: Shell) {
    Guarded(s) && Waiting(s) && ExitClean(s)
  }

  lemma AbortKept(s: Shell)
    requires Guarded(s)
    ensures var t := AbortPending(s); Guarded(t) && forall n | n in t.queue :: !IsExecute(t, n)
  {
  }

  lemma InterruptKept(s: Shell)
    requires Guarded(s) && s.applied < |s.commands| && s.commands[s.applied].Interrupt?
    ensures Guarded(ApplyControl(s)) && ApplyControl(s).point == s.point
  {
    var i := s.(interrupting := true, active := Poke(s.active));
    AbortKept(if i.held.Some? then EndHold(i, "interrupt") else i);
  }

  lemma EndHoldKept(s: Shell, status: string)
    requires Guarded(s) && s.held.Some?
    ensures Guarded(EndHold(s, status)) && EndHold(s, status).point == s.point
  {
  }

  lemma FailHoldKept(s: Shell, status: string)
    requires Guarded(s) && s.held.Some?
    ensures Guarded(FailHold(s, status)) && FailHold(s, status).point == s.point
  {
    EndHoldKept(s, status);
    AbortKept(EndHold(s, status));
  }

  lemma AckKept(s: Shell, e: Event)
    requires Guarded(s)
    ensures Guarded(s.(log := s.log + [e]))
  {
  }

  lemma ReleaseKept(s: Shell)
    requires Guarded(s) && s.applied < |s.commands| && s.commands[s.applied].Release?
    ensures Guarded(ApplyControl(s)) && ApplyControl(s).point == s.point
  {
    var c := s.commands[s.applied];
    var r := s.(applied := s.applied + 1);
    assert Guarded(r);
    if Releases(s, c.msgId) {
      FailHoldKept(r, c.status);
      AckKept(FailHold(r, c.status), Acked(true));
    } else {
      AckKept(r, Acked(false));
    }
  }

  lemma ControlKept(s: Shell)
    requires Guarded(s) && s.applied < |s.commands|
    ensures Guarded(ApplyControl(s)) && ApplyControl(s).point == s.point
  {
    match s.commands[s.applied] {
      case Release(_, _) => ReleaseKept(s);
      case Interrupt(_) => InterruptKept(s);
      case Stop =>
    }
  }

  lemma CompleteKept(s: Shell)
    requires Guarded(s) && s.active.Some? && Finished(s.active.value)
    ensures var t := Complete(s); Guarded(t)
    ensures Complete(s).point == s.point || Complete(s).point == Exited(Crashed)
  {
    AbortKept(s.(active := None));
  }

  lemma SettleKept(s: Shell)
    requires Guarded(s) && s.point.Check?
    ensures var t := Settle(s); Guarded(t) && (t.point.Check? || t.point == Exited(Crashed))
    ensures Settle(s).interrupting ==> Settle(s).active.Some?
  {
    if s.active.Some? && Finished(s.active.value) { CompleteKept(s); }
  }

  lemma HandleKept(s: Shell, n: nat, service: Service)
    requires Guarded(s) && Eligible(s, n) && (s.interrupting ==> s.active.Some?)
    ensures Kept(Handle(s, n, service))
  {
    if IsExecute(s, n) && !s.sent[n].hasCode {
      AbortKept(Popped(s, n).(log := s.log + RefuseScript(n, "MissingField", s.count)));
    }
  }

  lemma ProceedKeeps(s: Shell, service: Service)
    requires Guarded(s) && s.point.Check? && (s.interrupting ==> s.active.Some?)
    ensures Kept(Proceed(s, service))
  {
    if Runnable(s).Some? { HandleKept(s, Runnable(s).value, service); }
  }

  lemma PassKeeps(s: Shell, service: Service)
    requires Kept(s) && Enabled(s, Pass(service))
    ensures Kept(Next(s, Pass(service)))
  {
    SettleKept(s);
    if !Settle(s).point.Exited? { ProceedKeeps(Settle(s), service); }
  }

  /** The steps of other tasks. */
  lemma OutsideKeeps(s: Shell, a: Step)
    requires Kept(s) && Enabled(s, a) && (a.Send? || a.Command? || a.TaskPublish? || a.TaskReturn?)
    ensures Kept(Next(s, a))
  {
  }

  lemma TimeoutKeeps(s: Shell)
    requires Kept(s) && Enabled(s, WakeTimeout)
    ensures Kept(Next(s, WakeTimeout))
  {
    AbortKept(EndHold(s, "timeout"));
  }

  lemma WakeKeeps(s: Shell, a: Step)
    requires Kept(s) && Enabled(s, a) && (a.WakeIncoming? || a.WakeControl? || a.WakeDone? || a.WakeTimeout?)
    ensures Kept(Next(s, a))
  {
    match a {
      case WakeControl => ControlKept(s);
      case WakeDone => CompleteKept(s);
      case WakeTimeout => TimeoutKeeps(s);
      case _ =>
    }
  }

  lemma StepKeeps(s: Shell, a: Step)
    requires Kept(s) && Enabled(s, a)
    ensures Kept(Next(s, a))
  {
    match a {
      case TakeIncoming =>
      case TakeControl => if s.applied < |s.commands| { ControlKept(s); }
      case Pass(service) => PassKeeps(s, service);
      case WakeIncoming => WakeKeeps(s, a);
      case WakeControl => WakeKeeps(s, a);
      case WakeDone => WakeKeeps(s, a);
      case WakeTimeout => WakeKeeps(s, a);
      case _ => OutsideKeeps(s, a);
    }
  }
}
