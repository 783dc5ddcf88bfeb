/** What every step of the scheduler keeps: where each request is, and what was published about it. */
module SchedulerInv {
  import opened Options
  import opened Messages
  import opened Scheduler

  ghost predicate Distinct(ns: seq<nat>) { forall i, j | 0 <= i < j < |ns| :: ns[i] != ns[j] }

  /** Every enqueued request is in the queue or has left it once; the active execution, the hold
      and the displaced holds are distinct execute requests that have left it. */
  ghost predicate Structured(s: Shell) {
    && InRange(s)
    && (forall n: nat :: n in s.queue <==> n < s.order && n !in s.dispatched)
    && (forall n | n in s.dispatched :: n < s.order)
    && Distinct(s.dispatched)
    && (s.held.Some? ==> IsExecute(s, s.held.value) && s.held.value in s.dispatched && s.held.value !in s.displaced)
    && (s.active.Some? ==> IsExecute(s, s.active.value.n) && s.active.value.n in s.dispatched && s.active.value.n !in s.displaced)
    && (s.active.Some? && s.held.Some? ==> s.active.value.n != s.held.value)
    && (forall n | n in s.displaced :: IsExecute(s, n) && n in s.dispatched)
  }

  /** The transcript `ms` of the active execution is what its task has published so far. */
  ghost predicate Tells(a: Active, r: Request, ms: seq<Event>) {
    match a.phase
    case Starting(pre) => ms + pre == OpenScript(a.n, r, a.count)
    case Running => ms == OpenScript(a.n, r, a.count)
    case Ending(post, outcome) => ms + post == OpenScript(a.n, r, a.count) + EndScript(a.n, r, a.count, outcome)
  }

  ghost predicate IsActive(s: Shell, n: nat) { s.active.Some? && s.active.value.n == n }

  ghost predicate IsHeld(s: Shell, n: nat) { s.held == Some(n) || n in s.displaced }

  /** The transcript of `n` says exactly where `n` is: nothing while it waits, the messages of its
      task while it runs, an opening while it is held or displaced, one complete bracket after. */
  ghost predicate Transcribed(s: Shell, n: nat) {
    var ms := About(s.log, n);
    if n >= s.order || !IsExecute(s, n) || n in s.queue then ms == []
    else if IsActive(s, n) then Tells(s.active.value, s.sent[n], ms)
    else if IsHeld(s, n) then IsOpen(ms, n, s.sent[n])
    else Bracket(ms)
  }

  ghost predicate Transcripts(s: Shell) { forall n: nat :: Transcribed(s, n) }

  ghost predicate Conserved(s: Shell) { Structured(s) && Transcripts(s) }

  /** In `t`, request `n` is where it was in `s` and nothing was published about it. */
  ghost predicate Same(s: Shell, t: Shell, n: nat) {
    && About(t.log, n) == About(s.log, n)
    && (n >= t.order || n in t.queue <==> n >= s.order || n in s.queue)
    && (IsExecute(t, n) <==> IsExecute(s, n))
    && (n < s.order && IsExecute(s, n) ==> t.sent[n] == s.sent[n])
    && (IsActive(t, n) <==> IsActive(s, n))
    && (IsActive(t, n) ==> t.active.value.(interrupts := 0) == s.active.value.(interrupts := 0))
    && (IsHeld(t, n) <==> IsHeld(s, n))
  }

  lemma SameTranscript(s: Shell, t: Shell, n: nat)
    requires Transcribed(s, n) && Same(s, t, n)
    ensures Transcribed(t, n)
  {
  }

  /** Only request `n` moved. */
  lemma OnlyOneMoves(s: Shell, t: Shell, n: nat)
    requires Transcripts(s) && Transcribed(t, n)
    requires forall m: nat | m != n :: Same(s, t, m)
    ensures Transcripts(t)
  {
    forall m: nat ensures Transcribed(t, m) {
      if m != n { SameTranscript(s, t, m); }
    }
  }

  lemma NoneMoves(s: Shell, t: Shell)
    requires Transcripts(s)
    requires forall m: nat :: Same(s, t, m)
    ensures Transcripts(t)
  {
    forall m: nat ensures Transcribed(t, m) { SameTranscript(s, t, m); }
  }

  /** `t` is `s` with other flags, other controls or another count of interrupts. */
  ghost predicate Relabelled(s: Shell, t: Shell) {
    && t == s.(commands := t.commands, applied := t.applied, stopping := t.stopping, interrupting := t.interrupting,
               point := t.point, fence := t.fence, active := t.active)
    && t.applied <= |t.commands|
    && (t.active.Some? <==> s.active.Some?)
    && (t.active.Some? ==> t.active.value.(interrupts := 0) == s.active.value.(interrupts := 0))
  }

  lemma RelabelConserves(s: Shell, t: Shell)
    requires Conserved(s) && Relabelled(s, t)
    ensures Conserved(t)
  {
    forall m: nat ensures Transcribed(t, m) {
      assert Transcribed(s, m);
      SameTranscript(s, t, m);
    }
  }

  lemma MarkConserves(s: Shell, e: Event)
    requires Conserved(s) && (e.Acked? || e.Spawned? || e.Served?)
    ensures Conserved(s.(log := s.log + [e]))
  {
    AboutMark(s.log, e);
    NoneMoves(s, s.(log := s.log + [e]));
  }

  // ----- Drains and aborts

  lemma DrainConserves(s: Shell)
    requires Conserved(s)
    ensures Conserved(DrainIncoming(s))
  {
    var d := DrainIncoming(s);
    forall n: nat ensures Transcribed(d, n) { assert Transcribed(s, n); }
  }

  lemma RankedDistinct(sent: seq<Request>, q: set<nat>)
    requires Stamps(sent, q)
    ensures Distinct(Ranked(sent, q))
  {
    var ns := Ranked(sent, q);
    forall i, j | 0 <= i < j < |ns| ensures ns[i] != ns[j] { assert Better(sent, ns[i], ns[j]); }
  }

  lemma DistinctAppend(a: seq<nat>, b: seq<nat>)
    requires Distinct(a) && Distinct(b) && forall n | n in b :: n !in a
    ensures Distinct(a + b)
  {
    var c := a + b;
    forall i, j | 0 <= i < j < |c| ensures c[i] != c[j] {
      if i < |a| <= j { assert c[i] in a && c[j] in b; }
    }
  }

  lemma DrainStructured(s: Shell)
    requires Structured(s)
    ensures Structured(DrainIncoming(s))
  {
  }

  lemma AbortStructured(s: Shell)
    requires Structured(s)
    ensures Structured(AbortPending(s))
  {
    var d := DrainIncoming(s);
    var ns := Ranked(d.sent, Executes(d));
    DrainStructured(s);
    RankedDistinct(d.sent, Executes(d));
    DistinctAppend(d.dispatched, ns);
    MovedStructured(d, AbortPending(s), ns);
  }

  /** Queued requests in `ns` leave the queue. */
  lemma MovedStructured(d: Shell, t: Shell, ns: seq<nat>)
    requires Structured(d) && Distinct(d.dispatched + ns) && (forall n | n in ns :: n in d.queue) && InRange(t)
    requires t == d.(queue := t.queue, dispatched := d.dispatched + ns, log := t.log)
    requires forall n: nat :: n in t.queue <==> n in d.queue && n !in ns
    ensures Structured(t)
  {
    assert forall n: nat :: n in t.dispatched <==> n in d.dispatched || n in ns;
  }

  lemma AbortAbout(d: Shell, ns: seq<nat>, n: nat)
    requires Distinct(ns)
    ensures About(d.log + AbortLog(ns, d.count), n) == About(d.log, n) + if n in ns then AbortScript(n, d.count) else []
  {
    AbortLogAbout(ns, d.count);
    AboutAppend(d.log, AbortLog(ns, d.count), n);
  }

  lemma AbortTranscribes(s: Shell, d: Shell, n: nat)
    requires InRange(s) && d == DrainIncoming(s) && Conserved(d)
    ensures Transcribed(AbortPending(s), n)
  {
    var ns := Ranked(d.sent, Executes(d));
    RankedDistinct(d.sent, Executes(d));
    AbortAbout(d, ns, n);
    assert Transcribed(d, n);
    if n in Executes(d) {
      AnsweringPathsAreBrackets(n, d.sent[n], d.count, Returned(false), "", "", []);
      assert About(AbortPending(s).log, n) == AbortScript(n, d.count);
    } else {
      SameTranscript(d, AbortPending(s), n);
    }
  }

  lemma AbortConserves(s: Shell)
    requires Conserved(s)
    ensures Conserved(AbortPending(s))
  {
    DrainConserves(s);
    AbortStructured(s);
    forall n: nat ensures Transcribed(AbortPending(s), n) { AbortTranscribes(s, DrainIncoming(s), n); }
  }

  // ----- Holds

  lemma EndHoldConserves(s: Shell, status: string)
    requires Conserved(s) && s.held.Some?
    ensures Conserved(EndHold(s, status))
  {
    var n, t := s.held.value, EndHold(s, status);
    AboutPublish(s.log, HoldScript(n, s.count, status), n);
    assert Transcribed(s, n);
    AnsweringPathsAreBrackets(n, s.sent[n], s.count, Returned(false), status, "", About(s.log, n));
    OnlyOneMoves(s, t, n);
  }

  lemma FailHoldConserves(s: Shell, status: string)
    requires Conserved(s) && s.held.Some?
    ensures Conserved(FailHold(s, status))
  {
    EndHoldConserves(s, status);
    if HoldError(status).Some? { AbortConserves(EndHold(s, status)); }
  }

  // ----- Controls

  lemma ReleaseConserves(s: Shell, msgId: string, status: string)
    requires Conserved(s)
    ensures
      var found := Releases(s, msgId);
      var f := if found then FailHold(s, status) else s;
      Conserved(f.(log := f.log + [Acked(found)]))
  {
    var found := Releases(s, msgId);
    if found { FailHoldConserves(s, status); }
    var f := if found then FailHold(s, status) else s;
    MarkConserves(f, Acked(found));
  }

  lemma InterruptConserves(s: Shell)
    requires Conserved(s)
    ensures Conserved(ApplyInterrupt(s))
  {
    var i := s.(interrupting := true, active := Poke(s.active));
    RelabelConserves(s, i);
    if i.held.Some? { EndHoldConserves(i, "interrupt"); }
    var h := if i.held.Some? then EndHold(i, "interrupt") else i;
    AbortConserves(h);
    var a := AbortPending(h);
    RelabelConserves(a, a.(fence := a.order));
  }

  lemma ControlConserves(s: Shell)
    requires Conserved(s) && s.applied < |s.commands|
    ensures Conserved(ApplyControl(s))
  {
    var r := s.(applied := s.applied + 1);
    RelabelConserves(s, r);
    match s.commands[s.applied] {
      case Release(msgId, status) => ReleaseConserves(r, msgId, status);
      case Interrupt(_) => InterruptConserves(r);
      case Stop => RelabelConserves(r, r.(stopping := true));
    }
  }

  // ----- The execution task

  /** Publishing the first remaining message of the task keeps its script. */
  lemma PublishNext(s: Shell, ms: seq<Event>, rest: seq<Event>)
    requires Conserved(s) && s.active.Some? && rest != []
    requires ms == About(s.log, s.active.value.n)
    requires !s.active.value.phase.Running?
    requires rest == match s.active.value.phase case Starting(pre) => pre case Ending(post, _) => post
    ensures Own(rest[0], s.active.value.n)
    ensures About(s.log + [rest[0]], s.active.value.n) + rest[1..] == ms + rest
    ensures forall m: nat | m != s.active.value.n :: About(s.log + [rest[0]], m) == About(s.log, m)
  {
    var a := s.active.value;
    assert Transcribed(s, a.n);
    assert (ms + rest)[|ms|] == rest[0];
    AboutPublish(s.log, [rest[0]], a.n);
    assert (ms + [rest[0]]) + rest[1..] == ms + rest;
  }

  /** The task's next message is the next one of its script. */
  lemma TaskTells(s: Shell)
    requires Conserved(s) && Enabled(s, TaskPublish)
    ensures Transcribed(Published(s), s.active.value.n)
    ensures forall m: nat | m != s.active.value.n :: About(Published(s).log, m) == About(s.log, m)
  {
    var a := s.active.value;
    assert Transcribed(s, a.n);
    var ms := About(s.log, a.n);
    var rest := match a.phase case Starting(pre) => pre case Ending(post, _) => post;
    if rest == [] {
      assert ms + [] == ms;
    } else {
      PublishNext(s, ms, rest);
    }
  }

  lemma TaskConserves(s: Shell)
    requires Conserved(s) && Enabled(s, TaskPublish)
    ensures Conserved(Published(s))
  {
    TaskTells(s);
    var n, t := s.active.value.n, Published(s);
    assert t == s.(active := t.active, log := t.log) && t.active.Some? && t.active.value.n == n;
    OnlyOneMoves(s, t, n);
  }

  lemma ReturnConserves(s: Shell, o: Outcome)
    requires Conserved(s) && Enabled(s, TaskReturn(o))
    ensures Conserved(Next(s, TaskReturn(o)))
  {
    var a := s.active.value;
    assert Transcribed(s, a.n);
    OnlyOneMoves(s, Next(s, TaskReturn(o)), a.n);
  }

  /** The finished execution gives up its place. */
  lemma FinishConserves(s: Shell)
    requires Conserved(s) && s.active.Some? && Finished(s.active.value)
    ensures Conserved(s.(active := None))
  {
    var a, t := s.active.value, s.(active := None);
    assert Transcribed(s, a.n);
    AnsweringPathsAreBrackets(a.n, s.sent[a.n], a.count, a.phase.outcome, "", "", []);
    assert About(s.log, a.n) + [] == About(s.log, a.n);
    OnlyOneMoves(s, t, a.n);
  }

  lemma CompleteConserves(s: Shell)
    requires Conserved(s) && s.active.Some? && Finished(s.active.value)
    ensures Conserved(Complete(s))
  {
    var a, t := s.active.value, s.(active := None);
    if a.phase.outcome == Broke(Closed) {
      RelabelConserves(s, Complete(s));
    } else {
      FinishConserves(s);
      AbortConserves(t);
    }
  }

  lemma SettleConserves(s: Shell)
    requires Conserved(s)
    ensures Conserved(Settle(s))
  {
    var t := s;
    if s.active.Some? && Finished(s.active.value) {
      CompleteConserves(s);
      t := Complete(s);
    }
    RelabelConserves(t, Settle(s));
  }

  // ----- Popping

  /** Taking `n` off the queue, before anything is done about it. */
  ghost function Popped(s: Shell, n: nat): Shell {
    s.(queue := s.queue - {n}, dispatched := s.dispatched + [n], point := Head)
  }

  lemma PoppedStructured(s: Shell, n: nat)
    requires Structured(s) && n in s.queue
    ensures Structured(Popped(s, n))
  {
    DistinctAppend(s.dispatched, [n]);
  }

  /** A popped execute request answered on the spot. */
  lemma RefuseConserves(s: Shell, n: nat, ename: string)
    requires Conserved(s) && n in s.queue && IsExecute(s, n)
    ensures Conserved(Popped(s, n).(log := s.log + RefuseScript(n, ename, s.count)))
  {
    var ms := RefuseScript(n, ename, s.count);
    var t := Popped(s, n).(log := s.log + ms);
    PoppedStructured(s, n);
    AboutPublish(s.log, ms, n);
    assert Transcribed(s, n);
    assert About(t.log, n) == ms;
    AnsweringPathsAreBrackets(n, s.sent[n], s.count, Returned(false), "", ename, []);
    OnlyOneMoves(s, t, n);
  }

  lemma HoldStructured(s: Shell, n: nat, service: Service)
    requires Structured(s) && n in s.queue && IsExecute(s, n)
    requires !s.interrupting && s.sent[n].hasCode && s.sent[n].hold
    ensures Structured(Handle(s, n, service))
  {
    PoppedStructured(s, n);
  }

  lemma NewHoldOpens(s: Shell, n: nat, service: Service)
    requires Structured(s) && Transcribed(s, n) && n in s.queue && IsExecute(s, n)
    requires !s.interrupting && s.sent[n].hasCode && s.sent[n].hold
    ensures About(Handle(s, n, service).log, n) == OpenScript(n, s.sent[n], s.count)
  {
    AboutPublish(s.log, OpenScript(n, s.sent[n], s.count), n);
  }

  /** The request that becomes the hold is open. */
  lemma NewHoldTranscribes(s: Shell, n: nat, service: Service)
    requires Structured(s) && Transcribed(s, n) && n in s.queue && IsExecute(s, n)
    requires !s.interrupting && s.sent[n].hasCode && s.sent[n].hold
    ensures Transcribed(Handle(s, n, service), n)
  {
    var t := Handle(s, n, service);
    NewHoldOpens(s, n, service);
    assert IsHeld(t, n) && !IsActive(t, n) && n !in t.queue;
  }

  /** The others stay where they are, the hold that loses its place among the displaced. */
  lemma OtherHoldTranscribes(s: Shell, n: nat, service: Service, m: nat)
    requires Structured(s) && Transcribed(s, m) && n in s.queue && IsExecute(s, n) && m != n
    requires !s.interrupting && s.sent[n].hasCode && s.sent[n].hold
    ensures Transcribed(Handle(s, n, service), m)
  {
    AboutPublish(s.log, OpenScript(n, s.sent[n], s.count), n);
    SameTranscript(s, Handle(s, n, service), m);
  }

  lemma HoldConserves(s: Shell, n: nat, service: Service)
    requires Conserved(s) && n in s.queue && IsExecute(s, n)
    requires !s.interrupting && s.sent[n].hasCode && s.sent[n].hold
    ensures Conserved(Handle(s, n, service))
  {
    HoldStructured(s, n, service);
    forall m: nat ensures Transcribed(Handle(s, n, service), m) {
      if m == n { NewHoldTranscribes(s, n, service); } else { OtherHoldTranscribes(s, n, service, m); }
    }
  }

  lemma StartConserves(s: Shell, n: nat, service: Service)
    requires Conserved(s) && n in s.queue && IsExecute(s, n) && s.active.None?
    requires !s.interrupting && s.sent[n].hasCode && !s.sent[n].hold
    ensures Conserved(Handle(s, n, service))
  {
    var t := Handle(s, n, service);
    var c := Advance(s, s.sent[n]);
    PoppedStructured(s, n);
    AboutMark(s.log, Spawned(n, c));
    assert Transcribed(s, n);
    assert [] + OpenScript(n, s.sent[n], c) == OpenScript(n, s.sent[n], c);
    OnlyOneMoves(s, t, n);
  }

  lemma ServeConserves(s: Shell, n: nat, service: Service)
    requires Conserved(s) && n in s.queue && !IsExecute(s, n) && n < |s.sent|
    ensures Conserved(Handle(s, n, service))
  {
    PoppedStructured(s, n);
    AboutMark(s.log, Served(n));
    assert Transcribed(s, n);
    OnlyOneMoves(s, Handle(s, n, service), n);
  }

  lemma HandleConserves(s: Shell, n: nat, service: Service)
    requires Conserved(s) && Eligible(s, n)
    ensures Conserved(Handle(s, n, service))
  {
    var r := s.sent[n];
    if !r.kind.Execute? {
      ServeConserves(s, n, service);
    } else if s.interrupting {
      RefuseConserves(s, n, "KeyboardInterrupt");
    } else if !r.hasCode {
      RefuseConserves(s, n, "MissingField");
      AbortConserves(Popped(s, n).(log := s.log + RefuseScript(n, "MissingField", s.count)));
    } else if r.hold {
      HoldConserves(s, n, service);
    } else {
      StartConserves(s, n, service);
    }
  }

  // ----- Steps

  lemma StepConserves(s: Shell, a: Step)
    requires Conserved(s) && Enabled(s, a)
    ensures Conserved(Next(s, a))
  {
    var t := Next(s, a);
    match a {
      case Send(_) => forall n: nat ensures Transcribed(t, n) { assert Transcribed(s, n); }
      case Command(_) => RelabelConserves(s, t);
      case TaskPublish => TaskConserves(s);
      case TaskReturn(o) => ReturnConserves(s, o);
      case TakeIncoming =>
        DrainConserves(s);
        RelabelConserves(DrainIncoming(s), t);
      case TakeControl =>
        if s.applied < |s.commands| { ControlConserves(s); } else { RelabelConserves(s, t); }
      case Pass(service) => PassConserves(s, service);
      case WakeIncoming => forall n: nat ensures Transcribed(t, n) { assert Transcribed(s, n); }
      case WakeControl =>
        ControlConserves(s);
        RelabelConserves(ApplyControl(s), t);
      case WakeDone =>
        CompleteConserves(s);
        RelabelConserves(Complete(s), t);
      case WakeTimeout =>
        EndHoldConserves(s, "timeout");
        AbortConserves(EndHold(s, "timeout"));
        RelabelConserves(AbortPending(EndHold(s, "timeout")), t);
    }
  }

  lemma PassConserves(s: Shell, service: Service)
    requires Conserved(s) && Enabled(s, Pass(service))
    ensures Conserved(Next(s, Pass(service)))
  {
    SettleConserves(s);
    var t := Settle(s);
    if !t.point.Exited? {
      if t.stopping && t.queue == {} && t.active.None? && t.held.None? {
        RelabelConserves(t, Proceed(t, service));
      } else if Runnable(t).Some? {
        HandleConserves(t, Runnable(t).value, service);
      } else {
        RelabelConserves(t, Proceed(t, service));
      }
    }
  }
}
