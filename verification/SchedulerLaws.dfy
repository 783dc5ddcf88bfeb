/** What the scheduler's operations do, said in terms of requests and messages alone. */
module SchedulerLaws {
  import opened Options
  import opened Messages
  import opened Scheduler
  import opened SchedulerInv
  import opened SchedulerRuns

  // ----- Urgency

  /** `a` goes before `b`: a higher priority first, and among equals the one that was sent first. */
  predicate MoreUrgent(sent: seq<Request>, a: nat, b: nat)
    requires a < |sent| && b < |sent|
  {
    if sent[a].priority == sent[b].priority then a < b else sent[a].priority > sent[b].priority
  }

  /** An execute request has to wait for the running execution, and for a hold that is as urgent or more. */
  predicate HasToWait(s: Shell, n: nat)
    requires n < |s.sent| && (s.held.Some? ==> s.held.value < |s.sent|)
  {
    s.sent[n].kind.Execute?
    && (s.active.Some? || (s.held.Some? && s.sent[n].priority <= s.sent[s.held.value].priority))
  }

  /** A pop takes the most urgent queued request that does not have to wait, if there is one. */
  lemma PopIsMostUrgent(s: Shell)
    requires InRange(s)
    ensures Runnable(s).None? <==> forall n | n in s.queue :: HasToWait(s, n)
    ensures
      Runnable(s).Some? ==>
        var b := Runnable(s).value;
        && b in s.queue && b < |s.sent| && !HasToWait(s, b)
        && forall n | n in s.queue && n != b && !HasToWait(s, n) :: MoreUrgent(s.sent, b, n)
  {
    forall n | n in s.queue ensures Eligible(s, n) <==> !HasToWait(s, n) {
    }
  }

  /** Aborts go by urgency too, and take each request once. */
  lemma AbortsByUrgency(sent: seq<Request>, q: set<nat>)
    requires Stamps(sent, q)
    ensures forall i, j | 0 <= i < j < |Ranked(sent, q)| :: MoreUrgent(sent, Ranked(sent, q)[i], Ranked(sent, q)[j])
    ensures forall n: nat :: n in Ranked(sent, q) <==> n in q
  {
  }

  /** Over every run: whenever a pass takes a request out of the queue, no other queued request that
      does not have to wait is more urgent. */
  lemma MostUrgentFirst(steps: seq<Step>, service: Service, b: nat)
    requires Runs(Fresh, steps) && Reached(steps).point.Check?
    requires
      var t := Settle(Reached(steps));
      b in t.queue && !t.point.Exited? && !HasToWait(t, b)
    ensures
      var t, u := Settle(Reached(steps)), Next(Reached(steps), Pass(service));
      && |t.dispatched| < |u.dispatched|
      && var n := u.dispatched[|t.dispatched|];
         n in t.queue && !HasToWait(t, n) && (n == b || MoreUrgent(t.sent, n, b))
  {
    var t := Settle(Reached(steps));
    PopIsMostUrgent(t);
    PassDispatches(Reached(steps), service);
  }

  /** A pass that finds a request to run takes it out of the queue before anything else leaves it. */
  lemma PassDispatches(s: Shell, service: Service)
    requires InRange(s) && s.point.Check? && !Settle(s).point.Exited? && Runnable(Settle(s)).Some?
    ensures
      var t, u := Settle(s), Next(s, Pass(service));
      |t.dispatched| < |u.dispatched| && u.dispatched[|t.dispatched|] == Runnable(t).value
  {
    var t := Settle(s);
    assert Runnable(t).value in t.queue;
    HandleDispatches(t, Runnable(t).value, service);
  }

  lemma HandleDispatches(s: Shell, n: nat, service: Service)
    requires InRange(s) && n < s.order
    ensures
      var u := Handle(s, n, service);
      |s.dispatched| < |u.dispatched| && u.dispatched[|s.dispatched|] == n
  {
  }

  // ----- Aborts

  /** Requests that are not execute requests survive an abort: what was queued or unread is queued. */
  lemma AbortKeepsOthers(s: Shell, n: nat)
    requires InRange(s) && n < |s.sent| && !s.sent[n].kind.Execute?
    ensures n in AbortPending(s).queue <==> n in s.queue || n >= s.order
    ensures About(AbortPending(s).log, n) == About(s.log, n)
  {
    var d := DrainIncoming(s);
    RankedDistinct(d.sent, Executes(d));
    AbortAbout(d, Ranked(d.sent, Executes(d)), n);
  }

  // ----- Controls

  lemma AckAbout(f: Shell, found: bool, n: nat)
    ensures About((f.log + [Acked(found)]), n) == About(f.log, n)
  {
    AboutMark(f.log, Acked(found));
  }

  lemma HeldAnswers(r: Shell, status: string, n: nat)
    requires InRange(r) && Transcribed(r, n) && IsExecute(r, n) && r.held.Some? && r.held.value !in r.queue
    ensures
      var t := FailHold(r, status);
      var failed := status == "error" || status == "interrupt" || status == "timeout";
      && About(t.log, n) ==
         (if r.held == Some(n) then About(r.log, n) + HoldScript(n, r.count, status)
          else if failed && (n >= r.order || n in r.queue) then AbortScript(n, r.count)
          else About(r.log, n))
      && t.held.None?
  {
    HoldEndAbout(r, status, n);
  }

  lemma FoundIs(s: Shell, status: string)
    requires InRange(s) && s.applied < |s.commands| && s.held.Some?
    requires s.commands[s.applied] == Release(s.sent[s.held.value].msgId, status)
    ensures
      var f := FailHold(s.(applied := s.applied + 1), status);
      ApplyControl(s) == f.(log := f.log + [Acked(true)])
  {
  }

  lemma FoundAnswers(s: Shell, r: Shell, status: string, n: nat)
    requires InRange(s) && s.applied < |s.commands| && s.held.Some? && s.held.value !in s.queue
    requires s.commands[s.applied] == Release(s.sent[s.held.value].msgId, status)
    requires r == s.(applied := s.applied + 1) && Transcribed(r, n) && IsExecute(r, n)
    ensures
      About(ApplyControl(s).log, n) ==
        if s.held == Some(n) then About(s.log, n) + HoldScript(n, s.count, status)
        else if (status == "error" || status == "interrupt" || status == "timeout") && (n >= s.order || n in s.queue) then
          AbortScript(n, s.count)
        else About(s.log, n)
    ensures ApplyControl(s).log != [] && ApplyControl(s).log[|ApplyControl(s).log| - 1] == Acked(true)
    ensures ApplyControl(s).held.None?
  {
    FoundIs(s, status);
    HeldAnswers(r, status, n);
    AckAbout(FailHold(r, status), true, n);
  }

  /** A release that names the held request answers it by its status, and aborts what waits exactly when
      the status is `error`, `interrupt` or `timeout`. Any other release changes no transcript. Both are
      acknowledged, with whether the hold was found. */
  lemma ReleaseAnswers(s: Shell, n: nat)
    requires Good(s) && IsExecute(s, n) && s.applied < |s.commands| && s.commands[s.applied].Release?
    ensures
      var c, t := s.commands[s.applied], ApplyControl(s);
      var found := s.held.Some? && s.sent[s.held.value].msgId == c.msgId;
      var failed := c.status == "error" || c.status == "interrupt" || c.status == "timeout";
      && About(t.log, n) ==
         (if found && s.held == Some(n) then About(s.log, n) + HoldScript(n, s.count, c.status)
          else if found && failed && (n >= s.order || n in s.queue) then AbortScript(n, s.count)
          else About(s.log, n))
      && |t.log| > 0 && t.log[|t.log| - 1] == Acked(found)
      && (found ==> t.held.None?) && (!found ==> t.held == s.held)
  {
    assert Transcribed(s, n);
    if Releases(s, s.commands[s.applied].msgId) {
      FoundAnswers(s, s.(applied := s.applied + 1), s.commands[s.applied].status, n);
    } else {
      AckAbout(s, false, n);
    }
  }

  /** The deadline of a hold answers it with a HoldTimeout error and aborts what waits. */
  lemma TimeoutAnswers(s: Shell, n: nat)
    requires Good(s) && IsExecute(s, n) && Enabled(s, WakeTimeout)
    ensures
      var t := Next(s, WakeTimeout);
      && About(t.log, n) ==
         (if s.held == Some(n) then About(s.log, n) + ErrorScript(n, "HoldTimeout", s.count)
          else if n >= s.order || n in s.queue then AbortScript(n, s.count)
          else About(s.log, n))
      && t.held.None? && t.point.Head?
  {
    assert Transcribed(s, n);
    HoldEndAbout(s, "timeout", n);
    assert Next(s, WakeTimeout) == FailHold(s, "timeout").(point := Head);
  }

  /** An execute request without code is answered with a MissingField error, and what waits is aborted. */
  lemma MissingAnswers(s: Shell, m: nat, service: Service, n: nat)
    requires Good(s) && m in s.queue && IsExecute(s, m) && !s.sent[m].hasCode && !s.interrupting && IsExecute(s, n)
    ensures
      About(Handle(s, m, service).log, n) ==
        if n == m then [Busy(n)] + ErrorScript(n, "MissingField", s.count)
        else if n >= s.order || n in s.queue then AbortScript(n, s.count)
        else About(s.log, n)
  {
    var script := RefuseScript(m, "MissingField", s.count);
    var p := Popped(s, m).(log := s.log + script);
    assert Transcribed(s, n) && Transcribed(s, m);
    AboutPublish(s.log, script, m);
    AbortPendingAbout(p, n);
  }

  // ----- Exits

  /** A step returns from the loop in exactly three ways: a finished execution whose language is gone, a
      stopping shell with nothing queued, running or held, or a pop that ends it. */
  lemma ExitsExactly(s: Shell, a: Step)
    requires Good(s) && Enabled(s, a) && !s.point.Exited?
    ensures
      var u := Next(s, a);
      var gone := s.active.Some? && Finished(s.active.value) && s.active.value.phase.outcome == Broke(Closed);
      var t := Settle(s);
      var idle := t.queue == {} && t.active.None? && t.held.None?;
      && (u.point == Exited(Crashed) || u.point == Exited(Stopped) || u.point == Exited(ShutDown) || !u.point.Exited?)
      && (u.point == Exited(Stopped) <==> a.Pass? && !gone && s.stopping && idle)
      && (u.point == Exited(ShutDown) <==>
            && a.Pass? && !gone && !(s.stopping && idle) && Runnable(t).Some? && t.sent[Runnable(t).value].kind.Shutdown?)
      && (u.point == Exited(Crashed) <==>
            || (a.WakeDone? && gone)
            || (a.Pass? && (gone || (!(s.stopping && idle) && Runnable(t).Some?
                                     && t.sent[Runnable(t).value].kind.Service? && a.service.Gone?))))
  {
    if a.Pass? { PassExits(s, a.service); }
  }

  lemma PassExits(s: Shell, service: Service)
    requires InRange(s) && s.point.Check?
    ensures
      var t, u := Settle(s), Next(s, Pass(service));
      var gone := s.active.Some? && Finished(s.active.value) && s.active.value.phase.outcome == Broke(Closed);
      && (gone <==> t.point.Exited?) && (gone ==> u.point == Exited(Crashed)) && t.stopping == s.stopping
      && (!gone && s.stopping && t.queue == {} && t.active.None? && t.held.None? ==> u.point == Exited(Stopped))
      && (!gone && !(s.stopping && t.queue == {} && t.active.None? && t.held.None?) ==>
            u.point == if Runnable(t).None? then Select
                       else if t.sent[Runnable(t).value].kind.Shutdown? then Exited(ShutDown)
                       else if t.sent[Runnable(t).value].kind.Service? && service.Gone? then Exited(Crashed)
                       else Head)
  {
    var t := Settle(s);
    if !t.point.Exited? && Runnable(t).Some? { HandlePoint(t, Runnable(t).value, service); }
  }

  lemma HandlePoint(s: Shell, n: nat, service: Service)
    requires InRange(s) && n < s.order
    ensures Handle(s, n, service).point ==
              if s.sent[n].kind.Shutdown? then Exited(ShutDown)
              else if s.sent[n].kind.Service? && service.Gone? then Exited(Crashed)
              else Head
  {
  }
}
