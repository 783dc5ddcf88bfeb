/** Execution counts: what each message reports. */
module SchedulerCount {
  import opened Options
  import opened Messages
  import opened Scheduler
  import opened SchedulerInv

  predicate Stores(r: Request) { r.storeHistory && !r.silent }

  /** How many executions that store history have been spawned in `log`. */
  function Stored(sent: seq<Request>, log: seq<Event>): nat {
    if log == [] then 0
    else
      var e := log[|log| - 1];
      Stored(sent, log[..|log| - 1]) + if e.Spawned? && e.n < |sent| && Stores(sent[e.n]) then 1 else 0
  }

  /** The execution count an event reports. */
  function Reports(e: Event): Option<nat> {
    match e
    case Input(_, c) => Some(c)
    case Result(_, c) => Some(c)
    case Reply(_, _, c) => c
    case _ => None
  }

  /** An execution is spawned with the number of history-storing executions so far, itself
      included. Every other count an event reports is the number so far, or the count that the
      request's own execution was spawned with. */
  ghost predicate CountedAt(sent: seq<Request>, log: seq<Event>, i: nat)
    requires i < |log|
  {
    var e := log[i];
    && (e.Spawned? ==> e.n < |sent| && e.count == Stored(sent, log[..i + 1]))
    && (Reports(e).Some? ==> Reports(e).value == Stored(sent, log[..i]) || Spawned(e.n, Reports(e).value) in log[..i])
  }

  ghost predicate AllCounted(sent: seq<Request>, log: seq<Event>) { forall i: nat | i < |log| :: CountedAt(sent, log, i) }

  ghost predicate Counted(s: Shell) {
    && s.count == Stored(s.sent, s.log)
    && AllCounted(s.sent, s.log)
    && (s.active.Some? ==> Spawned(s.active.value.n, s.active.value.count) in s.log)
  }

  /** What `e` has to say after `log`. */
  ghost predicate Fits(sent: seq<Request>, log: seq<Event>, e: Event) {
    && (e.Spawned? ==> e.n < |sent| && e.count == Stored(sent, log) + if Stores(sent[e.n]) then 1 else 0)
    && (Reports(e).Some? ==> Reports(e).value == Stored(sent, log) || Spawned(e.n, Reports(e).value) in log)
  }

  lemma StoredOne(sent: seq<Request>, log: seq<Event>, e: Event)
    ensures Stored(sent, log + [e]) == Stored(sent, log) + if e.Spawned? && e.n < |sent| && Stores(sent[e.n]) then 1 else 0
  {
    assert (log + [e])[..|log|] == log;
  }

  lemma CountedEarlier(sent: seq<Request>, log: seq<Event>, e: Event, i: nat)
    requires i < |log| && CountedAt(sent, log, i)
    ensures CountedAt(sent, log + [e], i)
  {
    assert (log + [e])[..i] == log[..i] && (log + [e])[..i + 1] == log[..i + 1];
  }

  lemma CountedLast(sent: seq<Request>, log: seq<Event>, e: Event)
    requires Fits(sent, log, e)
    ensures CountedAt(sent, log + [e], |log|)
  {
    StoredOne(sent, log, e);
    assert (log + [e])[..|log|] == log && (log + [e])[..|log| + 1] == log + [e];
  }

  /** One more event. */
  lemma OneMore(sent: seq<Request>, log: seq<Event>, e: Event)
    requires AllCounted(sent, log) && Fits(sent, log, e)
    ensures AllCounted(sent, log + [e])
  {
    forall i: nat | i < |log + [e]| ensures CountedAt(sent, log + [e], i) {
      if i < |log| { CountedEarlier(sent, log, e, i); } else { CountedLast(sent, log, e); }
    }
  }

  /** `chunk` spawns nothing, and reports no count but `count`. */
  ghost predicate Plain(chunk: seq<Event>, count: nat) {
    forall i | 0 <= i < |chunk| ::
      !chunk[i].Spawned? && (Reports(chunk[i]).Some? ==> Reports(chunk[i]).value == count)
  }

  /** Publishing with the current count keeps the counts right. */
  lemma {:induction false} PlainLog(sent: seq<Request>, log: seq<Event>, chunk: seq<Event>, count: nat)
    requires AllCounted(sent, log) && Plain(chunk, count) && Stored(sent, log) == count
    ensures AllCounted(sent, log + chunk) && Stored(sent, log + chunk) == count
  {
    if chunk == [] {
      assert log + chunk == log;
    } else {
      var front, e := chunk[..|chunk| - 1], chunk[|chunk| - 1];
      PlainLog(sent, log, front, count);
      StoredOne(sent, log + front, e);
      OneMore(sent, log + front, e);
      assert log + chunk == (log + front) + [e];
    }
  }

  lemma {:induction false} StoredLater(sent: seq<Request>, later: seq<Request>, log: seq<Event>)
    requires sent <= later && forall i | 0 <= i < |log| && log[i].Spawned? :: log[i].n < |sent|
    ensures Stored(later, log) == Stored(sent, log)
  {
    if log != [] { StoredLater(sent, later, log[..|log| - 1]); }
  }

  lemma SendCounts(s: Shell, r: Request)
    requires Counted(s)
    ensures Counted(s.(sent := s.sent + [r]))
  {
    var t := s.(sent := s.sent + [r]);
    forall i | 0 <= i < |s.log| && s.log[i].Spawned? ensures s.log[i].n < |s.sent| {
      assert CountedAt(s.sent, s.log, i);
    }
    StoredLater(s.sent, t.sent, s.log);
    forall i: nat | i < |t.log| ensures CountedAt(t.sent, t.log, i) {
      assert CountedAt(s.sent, s.log, i);
      StoredLater(s.sent, t.sent, s.log[..i]);
      StoredLater(s.sent, t.sent, s.log[..i + 1]);
    }
  }

  /** Counts depend on the log, the requests, the count and the active execution only. */
  lemma SameCounts(s: Shell, t: Shell)
    requires Counted(s) && t.sent == s.sent && t.log == s.log && t.count == s.count
    requires t.active.Some? ==> s.active.Some? && t.active.value.n == s.active.value.n && t.active.value.count == s.active.value.count
    ensures Counted(t)
  {
  }

  lemma ScriptsArePlain(n: nat, r: Request, ename: string, status: string, count: nat)
    ensures Plain(RefuseScript(n, ename, count), count) && Plain(OpenScript(n, r, count), count)
    ensures Plain(HoldScript(n, count, status), count) && Plain([Served(n)], count)
  {
  }

  lemma PlainCounts(s: Shell, t: Shell, chunk: seq<Event>)
    requires Counted(s) && Plain(chunk, s.count)
    requires t.sent == s.sent && t.log == s.log + chunk && t.count == s.count
    requires t.active.Some? ==> s.active.Some? && t.active.value.n == s.active.value.n && t.active.value.count == s.active.value.count
    ensures Counted(t)
  {
    PlainLog(s.sent, s.log, chunk, s.count);
  }

  lemma {:induction false} AbortLogPlain(ns: seq<nat>, count: nat)
    ensures Plain(AbortLog(ns, count), count)
  {
    if ns != [] { AbortLogPlain(ns[..|ns| - 1], count); }
  }

  lemma AbortCounts(s: Shell)
    requires InRange(s) && Counted(s)
    ensures Counted(AbortPending(s))
  {
    var d := DrainIncoming(s);
    var ns := Ranked(d.sent, Executes(d));
    AbortLogPlain(ns, s.count);
    PlainCounts(s, AbortPending(s), AbortLog(ns, s.count));
  }

  lemma EndHoldCounts(s: Shell, status: string)
    requires s.held.Some? && Counted(s)
    ensures Counted(EndHold(s, status))
  {
    ScriptsArePlain(s.held.value, Request("", Execute, 0.0, true, false, false, true, true), "", status, s.count);
    PlainCounts(s, EndHold(s, status), HoldScript(s.held.value, s.count, status));
  }

  lemma ReleaseCounts(s: Shell, msgId: string, status: string)
    requires InRange(s) && Counted(s)
    ensures
      var f := if Releases(s, msgId) then FailHold(s, status) else s;
      Counted(f.(log := f.log + [Acked(Releases(s, msgId))]))
  {
    var f := s;
    if Releases(s, msgId) {
      EndHoldCounts(s, status);
      AbortCounts(EndHold(s, status));
      f := FailHold(s, status);
    }
    var ack := [Acked(Releases(s, msgId))];
    PlainCounts(f, f.(log := f.log + ack), ack);
  }

  lemma ControlCounts(s: Shell)
    requires InRange(s) && Counted(s) && s.applied < |s.commands|
    ensures Counted(ApplyControl(s))
  {
    var r := s.(applied := s.applied + 1);
    SameCounts(s, r);
    match s.commands[s.applied] {
      case Release(msgId, status) => ReleaseCounts(r, msgId, status);
      case Interrupt(_) => InterruptCounts(r);
      case Stop => SameCounts(r, r.(stopping := true));
    }
  }

  lemma InterruptCounts(s: Shell)
    requires InRange(s) && Counted(s)
    ensures Counted(ApplyInterrupt(s))
  {
    var i := s.(interrupting := true, active := Poke(s.active));
    SameCounts(s, i);
    if i.held.Some? { EndHoldCounts(i, "interrupt"); }
    var h := if i.held.Some? then EndHold(i, "interrupt") else i;
    AbortCounts(h);
    SameCounts(AbortPending(h), ApplyInterrupt(s));
  }

  lemma CompleteCounts(s: Shell)
    requires InRange(s) && Counted(s) && s.active.Some? && Finished(s.active.value)
    ensures Counted(Complete(s))
  {
    var t := s.(active := None);
    SameCounts(s, t);
    AbortCounts(t);
    SameCounts(s, s.(point := Exited(Crashed)));
  }

  /** Spawning gives the execution the next number, if it stores history. */
  lemma SpawnCounts(s: Shell, n: nat, t: Shell)
    requires Counted(s) && n < |s.sent|
    requires var c := Advance(s, s.sent[n]);
             t.sent == s.sent && t.count == c && t.log == s.log + [Spawned(n, c)] && t.active.Some?
             && t.active.value.n == n && t.active.value.count == c
    ensures Counted(t)
  {
    var e := Spawned(n, Advance(s, s.sent[n]));
    StoredOne(s.sent, s.log, e);
    OneMore(s.sent, s.log, e);
    assert t.log[|s.log|] == e;
  }

  lemma RefuseCounts(s: Shell, n: nat)
    requires InRange(s) && Counted(s) && n < s.order
    ensures Counted(AbortPending(Popped(s, n).(log := s.log + RefuseScript(n, "MissingField", s.count))))
  {
    var p := Popped(s, n).(log := s.log + RefuseScript(n, "MissingField", s.count));
    ScriptsArePlain(n, s.sent[n], "MissingField", "", s.count);
    PlainCounts(s, p, RefuseScript(n, "MissingField", s.count));
    AbortCounts(p);
  }

  lemma AnswerCounts(s: Shell, n: nat, service: Service)
    requires InRange(s) && Counted(s) && n < s.order
    requires !s.sent[n].kind.Execute? || s.interrupting || (s.sent[n].hasCode && s.sent[n].hold)
    ensures Counted(Handle(s, n, service))
  {
    var r, t := s.sent[n], Handle(s, n, service);
    ScriptsArePlain(n, r, "KeyboardInterrupt", "", s.count);
    var chunk := if !r.kind.Execute? then [Served(n)]
                 else if s.interrupting then RefuseScript(n, "KeyboardInterrupt", s.count)
                 else OpenScript(n, r, s.count);
    assert t.log == s.log + chunk;
    PlainCounts(s, t, chunk);
  }

  lemma HandleCounts(s: Shell, n: nat, service: Service)
    requires InRange(s) && Counted(s) && n < s.order
    ensures Counted(Handle(s, n, service))
  {
    var r := s.sent[n];
    if !r.kind.Execute? || s.interrupting || (r.hasCode && r.hold) {
      AnswerCounts(s, n, service);
    } else if !r.hasCode {
      RefuseCounts(s, n);
    } else {
      SpawnCounts(s, n, Handle(s, n, service));
    }
  }

  /** The remaining messages of the task report the task's count. */
  lemma TaskReports(s: Shell)
    requires Conserved(s) && Enabled(s, TaskPublish)
    ensures
      var a := s.active.value;
      var rest := match a.phase case Starting(pre) => pre case Ending(post, _) => post;
      rest != [] ==> Own(rest[0], a.n) && (Reports(rest[0]).Some? ==> Reports(rest[0]).value == a.count)
  {
    var a := s.active.value;
    assert Transcribed(s, a.n);
    var ms := About(s.log, a.n);
    var rest := match a.phase case Starting(pre) => pre case Ending(post, _) => post;
    if rest != [] {
      assert (ms + rest)[|ms|] == rest[0];
      var o := OpenScript(a.n, s.sent[a.n], a.count);
      if a.phase.Ending? {
        var e := EndScript(a.n, s.sent[a.n], a.count, a.phase.outcome);
        assert rest[0] == (o + e)[|ms|];
        assert |ms| < |o| ==> rest[0] == o[|ms|];
        assert |ms| >= |o| ==> rest[0] == e[|ms| - |o|];
      } else {
        assert rest[0] == o[|ms|];
      }
    }
  }

  lemma TaskCounts(s: Shell)
    requires Conserved(s) && Counted(s) && Enabled(s, TaskPublish)
    ensures Counted(Published(s))
  {
    TaskReports(s);
    var a := s.active.value;
    var rest := match a.phase case Starting(pre) => pre case Ending(post, _) => post;
    if rest == [] {
      SameCounts(s, Published(s));
    } else {
      ReportCounts(s, Published(s), rest[0]);
    }
  }

  /** The task publishes a message that reports its own count, if any. */
  lemma ReportCounts(s: Shell, t: Shell, e: Event)
    requires Counted(s) && s.active.Some? && t.active.Some? && t.sent == s.sent && t.count == s.count && t.log == s.log + [e]
    requires t.active.value.n == s.active.value.n && t.active.value.count == s.active.value.count
    requires Own(e, s.active.value.n) && (Reports(e).Some? ==> Reports(e).value == s.active.value.count)
    ensures Counted(t)
  {
    StoredOne(s.sent, s.log, e);
    OneMore(s.sent, s.log, e);
  }

  lemma SettleCounts(s: Shell)
    requires InRange(s) && Counted(s)
    ensures Counted(Settle(s))
  {
    var t := s;
    if s.active.Some? && Finished(s.active.value) {
      CompleteCounts(s);
      t := Complete(s);
    }
    SameCounts(t, Settle(s));
  }

  /** The steps of `select!`. */
  lemma WakeCounts(s: Shell, a: Step)
    requires InRange(s) && Counted(s) && Enabled(s, a) && (a.WakeIncoming? || a.WakeControl? || a.WakeDone? || a.WakeTimeout?)
    ensures Counted(Next(s, a))
  {
    var t := s;
    if a.WakeControl? {
      ControlCounts(s);
      t := ApplyControl(s);
    } else if a.WakeDone? {
      CompleteCounts(s);
      t := Complete(s);
    } else if a.WakeTimeout? {
      EndHoldCounts(s, "timeout");
      AbortCounts(EndHold(s, "timeout"));
      t := AbortPending(EndHold(s, "timeout"));
    }
    SameCounts(t, Next(s, a));
  }

  lemma StepCounts(s: Shell, a: Step)
    requires Conserved(s) && Counted(s) && Enabled(s, a)
    ensures Counted(Next(s, a))
  {
    if a.Send? {
      SendCounts(s, a.request);
    } else if a.TaskPublish? {
      TaskCounts(s);
    } else if a.TakeControl? && s.applied < |s.commands| {
      ControlCounts(s);
    } else if a.Pass? {
      PassCounts(s, a.service);
    } else if a.WakeIncoming? || a.WakeControl? || a.WakeDone? || a.WakeTimeout? {
      WakeCounts(s, a);
    } else {
      SameCounts(s, Next(s, a));
    }
  }

  lemma PassCounts(s: Shell, service: Service)
    requires Conserved(s) && Counted(s) && Enabled(s, Pass(service))
    ensures Counted(Next(s, Pass(service)))
  {
    SettleCounts(s);
    var t := Settle(s);
    if !t.point.Exited? {
      if t.stopping && t.queue == {} && t.active.None? && t.held.None? {
        SameCounts(t, Proceed(t, service));
      } else if Runnable(t).Some? {
        HandleCounts(t, Runnable(t).value, service);
      } else {
        SameCounts(t, Proceed(t, service));
      }
    }
  }
}
