/** The shell scheduler of one session as a state machine over its steps.

    A request's order stamp is the position at which it was sent to the shell, so the `incoming`
    channel is the history `sent` read up to `order`, and the `controls` channel is the history
    `commands` read up to `applied`. */
module Scheduler {
  import opened Options
  import opened Messages

  /** `Interrupt` remembers how many requests had been sent to the shell when it was sent. */
  datatype Control = Release(msgId: string, status: string) | Interrupt(cut: nat) | Stop

  /** What is left of `run_execution`: opening messages to publish, the language running, or
      closing messages to publish. */
  datatype Phase = Starting(pre: seq<Event>) | Running | Ending(post: seq<Event>, outcome: Outcome)

  /** The running execution, and how many interrupt requests it has been sent. */
  datatype Active = Active(n: nat, count: nat, phase: Phase, interrupts: nat)

  predicate Finished(a: Active) { a.phase.Ending? && a.phase.post == [] }

  datatype Exit = Stopped | ShutDown | Crashed

  /** Where `run` is: before draining `incoming`, draining `controls`, before the checks and the
      pop, waiting in `select!`, or returned. */
  datatype Point = Head | Controls | Check | Select | Exited(how: Exit)

  /** `dispatched` lists requests in the order they left the queue, `displaced` holds whose place
      another hold took, and `fence` counts the requests enqueued when the last interrupt was
      applied: they are history, and no step depends on them. */
  datatype Shell = Shell(sent: seq<Request>, order: nat, commands: seq<Control>, applied: nat,
                         queue: set<nat>, held: Option<nat>, active: Option<Active>,
                         stopping: bool, interrupting: bool, count: nat, point: Point,
                         log: seq<Event>, dispatched: seq<nat>, displaced: set<nat>, fence: nat)

  const Fresh: Shell := Shell([], 0, [], 0, {}, None, None, false, false, 0, Head, [], [], {}, 0)

  // ----- The order of the queue

  /** `QueueItem::cmp`: `a` leaves the queue before `b`. */
  predicate Better(sent: seq<Request>, a: nat, b: nat)
    requires a < |sent| && b < |sent|
  {
    sent[a].priority > sent[b].priority || (sent[a].priority == sent[b].priority && a < b)
  }

  ghost predicate Stamps(sent: seq<Request>, q: set<nat>) { forall n | n in q :: n < |sent| }

  /** `b` is what a pop takes from `q`. */
  ghost predicate Tops(sent: seq<Request>, q: set<nat>, b: nat)
    requires Stamps(sent, q)
  {
    b in q && forall n | n in q && n != b :: Better(sent, b, n)
  }

  lemma {:induction false} BestExists(sent: seq<Request>, q: set<nat>)
    requires q != {} && Stamps(sent, q)
    ensures exists b :: Tops(sent, q, b)
  {
    var x :| x in q;
    var rest := q - {x};
    if rest == {} {
      assert forall n | n in q && n != x :: n in rest;
      assert Tops(sent, q, x);
    } else {
      BestExists(sent, rest);
      var c :| Tops(sent, rest, c);
      var b := if Better(sent, x, c) then x else c;
      forall n | n in q && n != b ensures Better(sent, b, n) {
        if n != x && n != c {
          assert n in rest;
          assert Better(sent, c, n);
        }
      }
      assert Tops(sent, q, b);
    }
  }

  /** The item `BinaryHeap::pop` takes out. */
  ghost function Best(sent: seq<Request>, q: set<nat>): (b: nat)
    requires q != {} && Stamps(sent, q)
    ensures Tops(sent, q, b)
  {
    BestExists(sent, q);
    var b :| Tops(sent, q, b);
    b
  }

  /** All of `q`, in the order repeated pops take it out. */
  ghost function Ranked(sent: seq<Request>, q: set<nat>): (ns: seq<nat>)
    requires Stamps(sent, q)
    ensures forall n: nat :: n in ns <==> n in q
    ensures forall i | 0 <= i < |ns| :: ns[i] in q
    ensures forall i, j | 0 <= i < j < |ns| :: Better(sent, ns[i], ns[j])
    decreases q
  {
    if q == {} then []
    else [Best(sent, q)] + Ranked(sent, q - {Best(sent, q)})
  }

  // ----- The scheduler's operations

  predicate IsExecute(s: Shell, n: nat) { n < |s.sent| && s.sent[n].kind.Execute? }

  ghost predicate InRange(s: Shell) {
    s.order <= |s.sent| && s.applied <= |s.commands|
    && (forall n | n in s.queue :: n < s.order)
    && (s.held.Some? ==> s.held.value < s.order)
    && (s.active.Some? ==> s.active.value.n < s.order)
  }

  /** The stamps from `lo` up to `hi`. */
  function Span(lo: nat, hi: nat): (q: set<nat>)
    ensures forall n: nat :: n in q <==> lo <= n < hi
    decreases hi
  {
    if lo >= hi then {} else Span(lo, hi - 1) + {hi - 1}
  }

  /** The channels, the stop flag, the count and the point are as they were, and nothing read is unread. */
  predicate Steady(s: Shell, t: Shell) {
    && t.sent == s.sent && t.commands == s.commands && t.applied == s.applied && s.order <= t.order
    && t.stopping == s.stopping && t.count == s.count && t.point == s.point
  }

  /** The drain of `incoming`. */
  ghost function DrainIncoming(s: Shell): Shell
    requires s.order <= |s.sent|
  {
    s.(queue := s.queue + Span(s.order, |s.sent|), order := |s.sent|)
  }

  ghost function Executes(s: Shell): set<nat> { set n | n in s.queue && IsExecute(s, n) }

  /** `abort_pending`: every execute request sent so far that still waits is answered `aborted`,
      best first. Other requests stay queued. */
  ghost function AbortPending(s: Shell): (t: Shell)
    requires InRange(s)
    ensures InRange(t) && Steady(s, t)
  {
    var d := DrainIncoming(s);
    var ns := Ranked(d.sent, Executes(d));
    d.(queue := d.queue - Executes(d), log := d.log + AbortLog(ns, d.count), dispatched := d.dispatched + ns)
  }

  /** `finish_hold` on the hold, which is over. */
  ghost function EndHold(s: Shell, status: string): (t: Shell)
    requires s.held.Some?
  {
    s.(held := None, log := s.log + HoldScript(s.held.value, s.count, status))
  }

  /** `finish_hold`, then stop-on-error if the hold failed. */
  ghost function FailHold(s: Shell, status: string): (t: Shell)
    requires InRange(s) && s.held.Some?
    ensures InRange(t) && Steady(s, t)
  {
    if HoldError(status).Some? then AbortPending(EndHold(s, status)) else EndHold(s, status)
  }

  /** The active execution gets one more interrupt request. */
  function Poke(a: Option<Active>): Option<Active> {
    if a.Some? then Some(a.value.(interrupts := a.value.interrupts + 1)) else None
  }

  ghost function ApplyInterrupt(s: Shell): (t: Shell)
    requires InRange(s)
    ensures InRange(t) && Steady(s, t)
  {
    var i := s.(interrupting := true, active := Poke(s.active));
    var h := if i.held.Some? then EndHold(i, "interrupt") else i;
    var a := AbortPending(h);
    a.(fence := a.order)
  }

  predicate Releases(s: Shell, msgId: string)
    requires s.held.Some? ==> s.held.value < |s.sent|
  {
    s.held.Some? && s.sent[s.held.value].msgId == msgId
  }

  /** `apply_control` on the next control in the channel. */
  ghost function ApplyControl(s: Shell): (t: Shell)
    requires InRange(s) && s.applied < |s.commands|
    ensures InRange(t) && Steady(s.(applied := s.applied + 1, stopping := s.stopping || s.commands[s.applied].Stop?), t)
  {
    var r := s.(applied := s.applied + 1);
    match s.commands[s.applied]
    case Release(msgId, status) =>
      var found := Releases(s, msgId);
      var f := if found then FailHold(r, status) else r;
      f.(log := f.log + [Acked(found)])
    case Interrupt(_) => ApplyInterrupt(r)
    case Stop => r.(stopping := true)
  }

  /** `execution_done` for the finished execution, or the return of its fatal error. */
  ghost function Complete(s: Shell): (t: Shell)
    requires InRange(s) && s.active.Some? && Finished(s.active.value)
    ensures InRange(t) && Steady(s.(point := t.point), t)
    ensures t.point == if s.active.value.phase.outcome == Broke(Closed) then Exited(Crashed) else s.point
  {
    var a := s.active.value;
    if a.phase.outcome == Broke(Closed) then s.(point := Exited(Crashed))
    else
      var t := s.(active := None);
      if Failed(a.phase.outcome) && s.sent[a.n].stopOnError && !s.interrupting then AbortPending(t) else t
  }

  /** The guard of `pop_runnable`. */
  predicate Eligible(s: Shell, n: nat)
    requires s.held.Some? ==> s.held.value < |s.sent|
  {
    n in s.queue && n < |s.sent|
    && (s.sent[n].kind.Execute? ==>
          s.active.None? && (s.held.Some? ==> s.sent[n].priority > s.sent[s.held.value].priority))
  }

  /** `pop_runnable`: the best eligible request. */
  ghost function Runnable(s: Shell): (r: Option<nat>)
    requires InRange(s)
    ensures r.None? <==> forall n | n in s.queue :: !Eligible(s, n)
    ensures r.Some? ==> Eligible(s, r.value) && r.value < |s.sent|
    ensures r.Some? ==> forall n | n in s.queue && n != r.value && Eligible(s, n) :: Better(s.sent, r.value, n)
  {
    var e := set n | n in s.queue && Eligible(s, n);
    if e == {} then
      assert forall n | n in s.queue && Eligible(s, n) :: n in e;
      None
    else
      assert forall n | n in s.queue && Eligible(s, n) :: n in e;
      Some(Best(s.sent, e))
  }

  /** Whether serving a non-execute request succeeds, fails, or finds the language closed. */
  datatype Service = Fine | Failing | Gone

  function Advance(s: Shell, r: Request): nat {
    if r.storeHistory && !r.silent then s.count + 1 else s.count
  }

  /** `handle_item` on a request taken off the queue. */
  ghost function Handle(s: Shell, n: nat, service: Service): (t: Shell)
    requires InRange(s) && n < |s.sent| && n < s.order
    ensures InRange(t) && Steady(s.(point := t.point, count := t.count), t)
  {
    var r := s.sent[n];
    var p := s.(queue := s.queue - {n}, dispatched := s.dispatched + [n], point := Head);
    if !r.kind.Execute? then
      p.(log := p.log + [Served(n)],
         point := if r.kind.Shutdown? then Exited(ShutDown) else if service.Gone? then Exited(Crashed) else Head)
    else if s.interrupting then
      p.(log := p.log + RefuseScript(n, "KeyboardInterrupt", s.count))
    else if !r.hasCode then
      AbortPending(p.(log := p.log + RefuseScript(n, "MissingField", s.count)))
    else if r.hold then
      p.(log := p.log + OpenScript(n, r, s.count), held := Some(n),
         displaced := p.displaced + if s.held.Some? then {s.held.value} else {})
    else
      var c := Advance(s, r);
      p.(count := c, log := p.log + [Spawned(n, c)], active := Some(Active(n, c, Starting(OpenScript(n, r, c)), 0)))
  }

  /** Lines 615 to 619: take in a finished execution, then forget an interrupt nothing answers to. */
  ghost function Settle(s: Shell): (t: Shell)
    requires InRange(s)
    ensures InRange(t) && Steady(s.(point := t.point), t)
  {
    var t := if s.active.Some? && Finished(s.active.value) then Complete(s) else s;
    if t.active.None? then t.(interrupting := false) else t
  }

  /** Lines 620 to 628, once settled. */
  ghost function Proceed(s: Shell, service: Service): (t: Shell)
    requires InRange(s)
    ensures InRange(t) && Steady(s.(point := t.point, count := t.count), t)
  {
    if s.stopping && s.queue == {} && s.active.None? && s.held.None? then s.(point := Exited(Stopped))
    else if Runnable(s).Some? then Handle(s, Runnable(s).value, service)
    else s.(point := Select)
  }

  // ----- Steps and runs

  /** `Send`, `Command` and the two task steps belong to other tasks: the kernel loop that feeds
      the channels and the execution task. The rest are the steps of `run`. */
  datatype Step =
    | Send(request: Request)
    | Command(control: Control)
    | TaskPublish
    | TaskReturn(outcome: Outcome)
    | TakeIncoming
    | TakeControl
    | Pass(service: Service)
    | WakeIncoming
    | WakeControl
    | WakeDone
    | WakeTimeout

  predicate Enabled(s: Shell, a: Step) {
    match a
    case Send(_) => !s.point.Exited?
    case Command(c) => !s.point.Exited? && (c.Interrupt? ==> c.cut <= |s.sent|)
    case TaskPublish => !s.point.Exited? && s.active.Some? && !Finished(s.active.value) && !s.active.value.phase.Running?
    case TaskReturn(_) => !s.point.Exited? && s.active.Some? && s.active.value.phase.Running?
    case TakeIncoming => s.point.Head?
    case TakeControl => s.point.Controls?
    case Pass(_) => s.point.Check?
    case WakeIncoming => s.point.Select? && s.order < |s.sent|
    case WakeControl => s.point.Select? && s.applied < |s.commands|
    case WakeDone => s.point.Select? && s.active.Some? && Finished(s.active.value)
    case WakeTimeout => s.point.Select? && s.held.Some?
  }

  /** The execution task publishes its next message, or starts the language when it has published
      the opening ones. */
  function Published(s: Shell): Shell
    requires s.active.Some? && !Finished(s.active.value) && !s.active.value.phase.Running?
  {
    var a := s.active.value;
    match a.phase
    case Starting(pre) =>
      if pre == [] then s.(active := Some(a.(phase := Running)))
      else s.(active := Some(a.(phase := Starting(pre[1..]))), log := s.log + [pre[0]])
    case Ending(post, outcome) =>
      s.(active := Some(a.(phase := Ending(post[1..], outcome))), log := s.log + [post[0]])
  }

  ghost function Next(s: Shell, a: Step): (t: Shell)
    requires InRange(s) && Enabled(s, a)
  {
    match a
    case Send(r) => s.(sent := s.sent + [r])
    case Command(c) => s.(commands := s.commands + [c])
    case TaskPublish => Published(s)
    case TaskReturn(o) =>
      var v := s.active.value;
      s.(active := Some(v.(phase := Ending(EndScript(v.n, s.sent[v.n], v.count, o), o))))
    case TakeIncoming => DrainIncoming(s).(point := Controls)
    case TakeControl => if s.applied < |s.commands| then ApplyControl(s) else s.(point := Check)
    case Pass(service) =>
      var t := Settle(s);
      if t.point.Exited? then t else Proceed(t, service)
    case WakeIncoming => s.(queue := s.queue + {s.order}, order := s.order + 1, point := Head)
    case WakeControl => ApplyControl(s).(point := Head)
    case WakeDone => var t := Complete(s); if t.point.Exited? then t else t.(point := Head)
    case WakeTimeout => AbortPending(EndHold(s, "timeout")).(point := Head)
  }
}
