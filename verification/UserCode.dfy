/** Delivery of interrupts to Python code without an `interrupt()` hook: one pending token, passed
    between the request, the SIGINT handler, the delivery thread, the deferred cancel and the entry
    of a `user_code()` block. Steps that hold the GIL are atomic. */
module UserCode {
  import opened Options

  /** SIGINT interrupts code on the main thread only. */
  datatype Thread = Main | Other

  /** The state behind the lock. */
  datatype Code = Code(thread: Option<Thread>, depth: nat, pending: bool, woken: bool)

  // ----- The critical sections

  /** `Delivery::request`: leave a token, and say whether to send SIGINT. */
  function Requested(c: Code): (Code, bool) {
    var main := c.thread == Some(Main);
    (c.(pending := true, woken := c.woken || main), main)
  }

  /** `Delivery::deliver`: take the token for user code on another thread. */
  function Delivered(c: Code): (Code, bool) {
    var inject := c.thread == Some(Other) && c.pending;
    (if inject then c.(pending := false) else c, inject)
  }

  /** `DeferredCancel::__call__` for a task that is not done: take the token outside user code. */
  function Deferred(c: Code): (Code, bool) {
    var cancel := c.thread.None? && c.pending;
    (if cancel then c.(pending := false) else c, cancel)
  }

  /** `ExecutionSink::started`. */
  function Started(c: Code): Code { c.(pending := false) }

  /** `__enter__`: take the token and raise, or go one block deeper. */
  function Entered(c: Code, thread: Thread): (Code, bool) {
    if c.pending then (c.(pending := false), true)
    else (c.(thread := if c.depth == 0 then Some(thread) else c.thread, depth := c.depth + 1), false)
  }

  /** `__exit__`: leave one block, and say whether it was the outermost. */
  function Left(c: Code): (Code, bool)
    requires c.depth > 0
  {
    (c.(depth := c.depth - 1, thread := if c.depth == 1 then None else c.thread), c.depth == 1)
  }

  /** `SignalRouter::__call__`: nothing for a SIGINT that kernmini did not announce, else whether to
      raise. */
  function Signalled(c: Code): (Code, Option<bool>) {
    if !c.woken then (c, None)
    else
      var raise := c.thread.Some? && c.pending;
      (c.(woken := false, pending := c.pending && !raise), Some(raise))
  }

  /** The lock-protected object, updated in place. */
  class SharedUserCode {
    var thread: Option<Thread>
    var depth: nat
    var pending: bool
    var woken: bool

    ghost function Value(): Code
      reads this
    {
      Code(thread, depth, pending, woken)
    }

    constructor ()
      ensures Value() == Code(None, 0, false, false)
    {
      thread, depth, pending, woken := None, 0, false, false;
    }

    method Request() returns (main: bool)
      modifies this
      ensures (Value(), main) == Requested(old(Value()))
    {
      pending := true;
      main := thread == Some(Main);
      woken := woken || main;
    }

    method Deliver() returns (inject: bool)
      modifies this
      ensures (Value(), inject) == Delivered(old(Value()))
    {
      inject := false;
      if thread == Some(Other) && pending {
        pending := false;
        inject := true;
      }
    }

    method DeferredCancel() returns (cancel: bool)
      modifies this
      ensures (Value(), cancel) == Deferred(old(Value()))
    {
      cancel := false;
      if thread.None? {
        cancel := pending;
        pending := false;
      }
    }

    method Start()
      modifies this
      ensures Value() == Started(old(Value()))
    {
      pending := false;
    }

    method Enter(current: Thread) returns (raised: bool)
      modifies this
      ensures (Value(), raised) == Entered(old(Value()), current)
    {
      raised := pending;
      pending := false;
      if !raised {
        if depth == 0 { thread := Some(current); }
        depth := depth + 1;
      }
    }

    method Exit() returns (outermost: bool)
      requires depth > 0
      modifies this
      ensures (Value(), outermost) == Left(old(Value()))
    {
      depth := depth - 1;
      outermost := depth == 0;
      if outermost { thread := None; }
    }

    method Signal() returns (raise: Option<bool>)
      modifies this
      ensures (Value(), raise) == Signalled(old(Value()))
    {
      if !woken { return None; }
      woken := false;
      var take := thread.Some? && pending;
      if take { pending := false; }
      raise := Some(take);
    }
  }

  // ----- The whole machine

  /** `current` is the execution started last, numbered from 1, and `finished` the tasks that are
      done. `unsent` is the execution of the request that is about to send SIGINT and then start its
      delivery thread, and `sent` counts the SIGINTs that the handler has not run for.
      `deliveries` counts delivery threads that have not run and `cancels` the cancel calls queued on
      the event loop, by execution. `injected` says that an injected KeyboardInterrupt has not fired.
      `requests`, `merged`, `raises`, `injections`, `fired` and `cancelled` count over the current
      execution; `merged` are the requests that found a token pending.
      `misread` counts kernmini's own SIGINTs taken for Ctrl-C, and `swallowed` Ctrl-Cs taken for its own. */
  datatype State = State(code: Code, current: nat, finished: set<nat>, deliveries: multiset<nat>, cancels: multiset<nat>,
                         unsent: Option<nat>, sent: nat, injected: bool, requests: nat, merged: nat, raises: nat,
                         injections: nat, fired: nat, cancelled: nat, misread: nat, swallowed: nat)

  const Initial :=
    State(Code(None, 0, false, false), 0, {0}, multiset{}, multiset{}, None, 0, false, 0, 0, 0, 0, 0, 0, 0, 0)

  datatype Step =
    | Start                      // the next execution's task begins
    | Finish                     // the current execution's task is done
    | Request                    // the engine requests an interrupt of the current execution
    | Kill                       // pthread_kill, after which the delivery thread is started
    | Handle(left: nat)          // the SIGINT handler runs; signals sent meanwhile may coalesce
    | CtrlC                      // the handler runs for a SIGINT from elsewhere
    | Deliver(e: nat)            // a delivery thread gets the GIL
    | Cancel(e: nat)             // the event loop runs a deferred cancel
    | Enter(thread: Thread)
    | Exit
    | Fire                       // an injected exception is raised

  /** Executions are serial: the next task begins when the current one is done. `user_code()` blocks
      are on the stack of the running task. One task makes all requests of a session, and a request
      sends its SIGINT before it returns. */
  predicate Enabled(s: State, a: Step) {
    match a
    case Start => s.current in s.finished
    case Finish => s.current !in s.finished && s.code.depth == 0
    case Request => s.current > 0 && s.unsent.None?
    case Kill => s.unsent.Some?
    case Handle(left) => left < s.sent
    case CtrlC => true
    case Deliver(e) => e in s.deliveries
    case Cancel(e) => e in s.cancels
    case Enter(_) => s.current !in s.finished
    case Exit => s.code.depth > 0
    case Fire => s.injected
  }

  function Count(b: bool): nat { if b then 1 else 0 }

  function Next(s: State, a: Step): State
    requires Enabled(s, a)
  {
    match a
    case Start =>
      s.(code := Started(s.code), current := s.current + 1,
         requests := 0, merged := 0, raises := 0, injections := 0, fired := 0, cancelled := 0)
    case Finish => s.(finished := s.finished + {s.current})
    case Request =>
      var (c, main) := Requested(s.code);
      var r := s.(code := c, requests := s.requests + 1, merged := s.merged + Count(s.code.pending));
      if main then r.(unsent := Some(s.current)) else r.(deliveries := s.deliveries + multiset{s.current})
    case Kill => s.(unsent := None, sent := s.sent + 1, deliveries := s.deliveries + multiset{s.unsent.value})
    case Handle(left) =>
      var (c, raise) := Signalled(s.code);
      s.(code := c, sent := left, raises := s.raises + Count(raise == Some(true)), misread := s.misread + Count(raise.None?))
    case CtrlC =>
      var (c, raise) := Signalled(s.code);
      s.(code := c, raises := s.raises + Count(raise == Some(true)), swallowed := s.swallowed + Count(raise.Some?))
    case Deliver(e) =>
      var (c, inject) := Delivered(s.code);
      s.(code := c, injections := s.injections + Count(inject), injected := s.injected || inject,
         deliveries := s.deliveries - multiset{e}, cancels := s.cancels + multiset{e})
    case Cancel(e) =>
      var rest := s.(cancels := s.cancels - multiset{e});
      if e in s.finished then rest
      else
        var (c, cancel) := Deferred(s.code);
        rest.(code := c, cancelled := s.cancelled + Count(cancel))
    case Enter(thread) =>
      var (c, raised) := Entered(s.code, thread);
      s.(code := c, raises := s.raises + Count(raised))
    case Exit =>
      var (c, outermost) := Left(s.code);
      s.(code := c, injected := s.injected && !outermost)
    case Fire => s.(injected := false, fired := s.fired + 1)
  }

  // ----- What every step keeps

  /** `thread` is set exactly inside user code, which a running task is in, and an injected exception
      waits only there. */
  predicate Nested(s: State) {
    && (s.code.thread.Some? <==> s.code.depth > 0)
    && (s.code.depth > 0 ==> s.current !in s.finished)
    && (s.injected ==> s.code.depth > 0)
  }

  /** A SIGINT of kernmini's has not been handled. */
  predicate UnderWay(s: State) { s.unsent.Some? || s.sent > 0 }

  /** Inside user code a token will reach it: through SIGINT on the main thread, through the
      current execution's delivery thread elsewhere. A wake-up that was announced is on its way. */
  predicate OnItsWay(s: State) {
    && (s.code.pending && s.code.thread == Some(Main) ==> s.code.woken)
    && (s.code.pending && s.code.thread == Some(Other) ==> s.current in s.deliveries)
    && (s.code.woken ==> UnderWay(s))
  }

  /** The requests of the current execution that are no longer, and never were, the token. */
  function Spent(s: State): nat { s.merged + s.raises + s.injections + s.cancelled }

  /** Conservation: each request of the current execution has been merged into a token that was already
      pending, or has become one raise, injection or cancel, or is the token. An injection fires at most
      once. */
  predicate Paid(s: State) {
    && Spent(s) + Count(s.code.pending) == s.requests
    && s.fired + Count(s.injected) <= s.injections
  }

  ghost predicate Begun(es: multiset<nat>, current: nat) { forall e | e in es :: e <= current }

  /** All earlier tasks are done, and signals, deliveries and cancels name executions that have begun. */
  ghost predicate Serial(s: State) {
    && (forall e: nat | e < s.current :: e in s.finished)
    && (forall e | e in s.finished :: e <= s.current)
    && (s.unsent.Some? ==> s.unsent.value <= s.current) && Begun(s.deliveries, s.current) && Begun(s.cancels, s.current)
  }

  ghost predicate Kept(s: State) { Nested(s) && OnItsWay(s) && Paid(s) && Serial(s) }

  lemma StepNested(s: State, a: Step)
    requires Nested(s) && Serial(s) && Enabled(s, a)
    ensures Nested(Next(s, a))
  {
  }

  lemma DeliverOnItsWay(s: State, e: nat)
    requires OnItsWay(s) && Nested(s) && Enabled(s, Deliver(e))
    ensures OnItsWay(Next(s, Deliver(e)))
  {
    assert forall d: nat | d != e :: (s.deliveries - multiset{e})[d] == s.deliveries[d];
  }

  lemma StepOnItsWay(s: State, a: Step)
    requires OnItsWay(s) && Nested(s) && Enabled(s, a)
    ensures OnItsWay(Next(s, a))
  {
    if a.Deliver? { DeliverOnItsWay(s, a.e); }
  }

  /** A handler run spends the token it takes. */
  lemma SignalPaid(s: State, a: Step)
    requires Paid(s) && Enabled(s, a) && (a.Handle? || a.CtrlC?)
    ensures Paid(Next(s, a))
  {
  }

  lemma DeliveryPaid(s: State, a: Step)
    requires Paid(s) && Enabled(s, a) && (a.Deliver? || a.Cancel? || a.Enter?)
    ensures Paid(Next(s, a))
  {
  }

  lemma StepPaid(s: State, a: Step)
    requires Paid(s) && Nested(s) && Enabled(s, a)
    ensures Paid(Next(s, a))
  {
    if a.Handle? || a.CtrlC? {
      SignalPaid(s, a);
    } else if a.Deliver? || a.Cancel? || a.Enter? {
      DeliveryPaid(s, a);
    }
  }

  lemma BegunMoves(from: multiset<nat>, to: multiset<nat>, e: nat, current: nat)
    requires Begun(from, current) && Begun(to, current) && e <= current
    ensures Begun(from - multiset{e}, current) && Begun(to + multiset{e}, current)
  {
  }

  lemma StepSerial(s: State, a: Step)
    requires Serial(s) && Enabled(s, a)
    ensures Serial(Next(s, a))
  {
    match a {
      case Request => BegunMoves(s.deliveries, s.deliveries, s.current, s.current);
      case Kill => BegunMoves(s.deliveries, s.deliveries, s.unsent.value, s.current);
      case Deliver(e) => BegunMoves(s.deliveries, s.cancels, e, s.current);
      case Cancel(e) => BegunMoves(s.cancels, s.cancels, e, s.current);
      case _ =>
    }
  }

  lemma StepKeeps(s: State, a: Step)
    requires Kept(s) && Enabled(s, a)
    ensures Kept(Next(s, a))
  {
    StepNested(s, a);
    StepOnItsWay(s, a);
    StepPaid(s, a);
    StepSerial(s, a);
  }

  /** A token that user code does not get will reach the task: a delivery thread, started or about to
      be, or a deferred cancel of the current execution is outstanding, or its task is done. */
  predicate Covered(s: State) {
    s.code.pending ==>
      s.unsent == Some(s.current) || s.current in s.deliveries || s.current in s.cancels || s.current in s.finished
  }

  /** The event loop runs the last outstanding cancel of a running task while user code with a
      token is on the stack, as a nested event loop would. */
  predicate CancelledInside(s: State, a: Step) {
    a == Cancel(s.current) && s.code.thread.Some? && s.code.pending && s.current !in s.finished
    && s.unsent != Some(s.current) && s.current !in s.deliveries && s.cancels[s.current] == 1
  }

  lemma OneLess(es: multiset<nat>, e: nat)
    ensures forall d: nat :: (es - multiset{e})[d] == if d == e && es[d] > 0 then es[d] - 1 else es[d]
    ensures forall d: nat :: (es + multiset{e})[d] == if d == e then es[d] + 1 else es[d]
  {
  }

  /** A cancel covers the token until the last one runs inside user code. */
  lemma CancelStaysCovered(s: State, e: nat)
    requires Kept(s) && Covered(s) && Enabled(s, Cancel(e))
    ensures Covered(Next(s, Cancel(e))) <==> !CancelledInside(s, Cancel(e))
  {
    OneLess(s.cancels, e);
  }

  /** The token stays covered unless exactly that happens. */
  lemma StaysCovered(s: State, a: Step)
    requires Kept(s) && Covered(s) && Enabled(s, a)
    ensures Covered(Next(s, a)) <==> !CancelledInside(s, a)
  {
    match a {
      case Kill => OneLess(s.deliveries, s.unsent.value);
      case Deliver(e) =>
        OneLess(s.deliveries, e);
        OneLess(s.cancels, e);
      case Cancel(e) => CancelStaysCovered(s, e);
      case _ =>
    }
  }

  // ----- Runs

  ghost predicate Runs(s: State, steps: seq<Step>)
    decreases |steps|
  {
    steps != [] ==> Enabled(s, steps[0]) && Runs(Next(s, steps[0]), steps[1..])
  }

  ghost function Final(s: State, steps: seq<Step>): State
    requires Runs(s, steps)
    decreases |steps|
  {
    if steps == [] then s else Final(Next(s, steps[0]), steps[1..])
  }

  ghost predicate NeverCancelledInside(s: State, steps: seq<Step>)
    requires Runs(s, steps)
    decreases |steps|
  {
    steps == [] || (!CancelledInside(s, steps[0]) && NeverCancelledInside(Next(s, steps[0]), steps[1..]))
  }

  lemma {:induction false} RunKeeps(s: State, steps: seq<Step>)
    requires Kept(s) && Runs(s, steps)
    ensures Kept(Final(s, steps))
    ensures Covered(s) && NeverCancelledInside(s, steps) ==> Covered(Final(s, steps))
    decreases |steps|
  {
    if steps != [] {
      StepKeeps(s, steps[0]);
      if Covered(s) { StaysCovered(s, steps[0]); }
      RunKeeps(Next(s, steps[0]), steps[1..]);
    }
  }

  lemma InitialSerial(s: State)
    requires s == Initial
    ensures Serial(s)
  {
  }

  lemma NothingPaid(s: State)
    requires !s.code.pending && !s.injected && s.requests == s.merged == s.raises == s.injections == 0
    requires s.fired == s.cancelled == 0
    ensures Paid(s)
  {
  }

  lemma InitialQuiet(s: State)
    requires s == Initial
    ensures Nested(s) && OnItsWay(s) && Covered(s)
  {
  }

  lemma KeptTokens(s: State)
    requires Kept(s)
    ensures s.code.thread.Some? <==> s.code.depth > 0
    ensures s.code.pending && s.code.thread == Some(Main) ==> s.code.woken && UnderWay(s)
    ensures s.code.pending && s.code.thread == Some(Other) ==> s.current in s.deliveries
    ensures s.injected ==> s.code.depth > 0
    ensures Spent(s) + Count(s.code.pending) == s.requests && s.fired <= s.injections
  {
  }

  lemma RunFromStart(s: State, steps: seq<Step>)
    requires s == Initial && Runs(s, steps)
    ensures Kept(Final(s, steps)) && (NeverCancelledInside(s, steps) ==> Covered(Final(s, steps)))
  {
    InitialSerial(s);
    NothingPaid(s);
    InitialQuiet(s);
    RunKeeps(s, steps);
  }

  /** The state a run from the start ends in. */
  ghost function Reached(steps: seq<Step>): (s: State)
    requires Runs(Initial, steps)
    ensures Kept(s) && (NeverCancelledInside(Initial, steps) ==> Covered(s))
  {
    RunFromStart(Initial, steps);
    Final(Initial, steps)
  }

  /** The pending-token invariant, on every interleaving. */
  lemma PendingToken(steps: seq<Step>)
    requires Runs(Initial, steps)
    ensures
      var s := Reached(steps);
      && (s.code.thread.Some? <==> s.code.depth > 0)
      && (s.code.pending && s.code.thread == Some(Main) ==> s.code.woken && UnderWay(s))
      && (s.code.pending && s.code.thread == Some(Other) ==> s.current in s.deliveries)
      && (s.injected ==> s.code.depth > 0)
      && Spent(s) + Count(s.code.pending) == s.requests && s.fired <= s.injections
      && (NeverCancelledInside(Initial, steps) ==> Covered(s))
  {
    KeptTokens(Reached(steps));
  }

  /** The steps that take the token, and how: at its entry user code raises and is not entered, a signal
      raises on the main thread inside user code, a delivery thread injects into user code elsewhere, a
      cancel strikes the running task outside, and a new execution starts without one. */
  lemma TokenIsTakenOnce(s: State, a: Step)
    requires Kept(s) && Enabled(s, a) && s.code.pending && !Next(s, a).code.pending
    ensures
      var t := Next(s, a);
      match a
      case Start => t.current == s.current + 1
      case Enter(_) => t == s.(code := s.code.(pending := false), raises := s.raises + 1)
      case Handle(_) => t.raises == s.raises + 1 && s.code.thread.Some?
      case CtrlC => t.raises == s.raises + 1 && s.code.thread.Some?
      case Deliver(_) => t.injections == s.injections + 1 && t.injected && s.code.thread == Some(Other)
      case Cancel(e) => t.cancelled == s.cancelled + 1 && s.code.thread.None? && e == s.current && e !in s.finished
      case _ => false
  {
  }

  /** The steps that have to take it do: an entry always, an announced signal inside user code, a delivery
      to user code on another thread, and a cancel of the running task outside. */
  lemma TokenIsTakenWhere(s: State, a: Step)
    requires Kept(s) && Enabled(s, a) && s.code.pending
    requires
      || a.Enter?
      || (a.Handle? && s.code.woken && s.code.thread.Some?)
      || (a.Deliver? && s.code.thread == Some(Other))
      || (a == Cancel(s.current) && s.code.thread.None? && s.current !in s.finished)
    ensures !Next(s, a).code.pending
  {
  }

  /** Every request leaves a token, and announces a SIGINT exactly for user code on the main thread. */
  lemma RequestLeavesToken(s: State)
    requires Enabled(s, Request)
    ensures
      var t := Next(s, Request);
      && t.code.pending && t.code.thread == s.code.thread && t.code.depth == s.code.depth
      && (s.code.thread == Some(Main) ==> t.code.woken && t.unsent == Some(s.current) && t.deliveries == s.deliveries)
      && (s.code.thread != Some(Main) ==> t.unsent == s.unsent && t.deliveries == s.deliveries + multiset{s.current})
  {
  }

  /** Without a token an entry goes one block deeper, on the thread of the outermost block. */
  lemma EntryWithoutToken(s: State, thread: Thread)
    requires Kept(s) && Enabled(s, Enter(thread)) && !s.code.pending
    ensures
      var t := Next(s, Enter(thread));
      && t.raises == s.raises && t.code.depth == s.code.depth + 1
      && t.code.thread == if s.code.depth == 0 then Some(thread) else s.code.thread
  {
  }

  /** An interrupt never leaks into the next execution: from its start until its first request, the
      run raises, injects, fires and cancels nothing, and no injected exception waits to fire,
      whatever SIGINTs, deliveries and cancels of earlier executions are still under way. */
  lemma NothingLeaks(steps: seq<Step>, more: seq<Step>)
    requires Runs(Initial, steps) && Enabled(Reached(steps), Start)
    requires Runs(Next(Reached(steps), Start), more) && Request !in more && Start !in more
    ensures
      var t := Final(Next(Reached(steps), Start), more);
      && !t.code.pending && !t.injected && !Enabled(t, Fire)
      && t.raises == 0 && t.injections == 0 && t.fired == 0 && t.cancelled == 0
  {
    StartIsClean(Reached(steps), more);
  }

  lemma StartIsClean(s: State, more: seq<Step>)
    requires Kept(s) && Enabled(s, Start) && Runs(Next(s, Start), more) && Request !in more && Start !in more
    ensures
      var t := Final(Next(s, Start), more);
      && !t.code.pending && !t.injected && !Enabled(t, Fire)
      && t.raises == 0 && t.injections == 0 && t.fired == 0 && t.cancelled == 0
  {
    StepKeeps(s, Start);
    QuietRun(Next(s, Start), more);
  }

  lemma {:induction false} QuietRun(s: State, more: seq<Step>)
    requires Kept(s) && s.requests == 0 && Runs(s, more) && Request !in more && Start !in more
    ensures Kept(Final(s, more)) && Final(s, more).requests == 0
    decreases |more|
  {
    if more != [] {
      assert more[0] in more;
      StepKeeps(s, more[0]);
      QuietRun(Next(s, more[0]), more[1..]);
    }
  }

  /** A cancel only ever cancels the current execution's task, and only while it runs. */
  lemma CancelHitsCurrent(s: State, e: nat)
    requires Kept(s) && Enabled(s, Cancel(e)) && Next(s, Cancel(e)).cancelled > s.cancelled
    ensures e == s.current && e !in s.finished
  {
  }

  /** A run goes on by one step at its end. */
  lemma {:induction false} RunOn(s: State, steps: seq<Step>, a: Step)
    requires Runs(s, steps) && Enabled(Final(s, steps), a)
    ensures Runs(s, steps + [a]) && Final(s, steps + [a]) == Next(Final(s, steps), a)
    decreases |steps|
  {
    if steps == [] {
      assert (steps + [a])[1..] == [];
      assert Runs(Next(s, a), []);
    } else {
      assert (steps + [a])[1..] == steps[1..] + [a];
      RunOn(Next(s, steps[0]), steps[1..], a);
    }
  }

  /** A run of states: each step leads to the next one. */
  lemma Extend(s: State, steps: seq<Step>, a: Step, t: State) returns (more: seq<Step>)
    requires Runs(s, steps) && Enabled(Final(s, steps), a) && t == Next(Final(s, steps), a)
    ensures Runs(s, more) && Final(s, more) == t
    ensures forall x | x in more :: x in steps || x == a
  {
    RunOn(s, steps, a);
    more := steps + [a];
  }

  /** User code of execution 1 on the main thread has been interrupted and nothing else has happened. */
  function Interrupted(): State {
    State(Code(Some(Main), 1, true, true), 1, {0}, multiset{}, multiset{}, Some(1), 0, false, 1, 0, 0, 0, 0, 0, 0, 0)
  }

  lemma InterruptMain() returns (steps: seq<Step>)
    ensures Runs(Initial, steps) && Final(Initial, steps) == Interrupted() && CtrlC !in steps
  {
    var s1 := Initial.(current := 1);
    var s2 := s1.(code := Code(Some(Main), 1, false, false));
    FirstSteps(Initial, s1, s2, Interrupted());
    steps := [Start, Enter(Main), Request];
  }

  lemma FirstSteps(s: State, s1: State, s2: State, s3: State)
    requires Enabled(s, Start) && s1 == Next(s, Start) && Enabled(s1, Enter(Main)) && s2 == Next(s1, Enter(Main))
    requires Enabled(s2, Request) && s3 == Next(s2, Request)
    ensures Runs(s, [Start, Enter(Main), Request]) && Final(s, [Start, Enter(Main), Request]) == s3
  {
    var steps := [Start, Enter(Main), Request];
    assert steps[1..] == [Enter(Main), Request] && steps[1..][1..] == [Request] && steps[1..][1..][1..] == [];
    assert Runs(s3, []) && Runs(s2, [Request]) && Final(s2, [Request]) == s3;
    assert Runs(s1, steps[1..]) && Final(s1, steps[1..]) == s3;
  }

  /** Then the SIGINT was sent and the delivery thread has queued the deferred cancel. */
  function Queued(): State { Interrupted().(unsent := None, sent := 1, cancels := multiset{1}) }

  lemma QueueCancel() returns (steps: seq<Step>)
    ensures Runs(Initial, steps) && Final(Initial, steps) == Queued()
  {
    steps := InterruptMain();
    var t := Interrupted().(unsent := None, sent := 1, deliveries := multiset{1});
    steps := Extend(Initial, steps, Kill, t);
    steps := Extend(Initial, steps, Deliver(1), Queued());
  }

  /** Without the no-nested-loop condition the token can be stranded: user code on the main thread
      is interrupted, the deferred cancel runs inside the block, and the block ends before the
      SIGINT handler runs. Then the token waits and nothing is on its way to it. */
  lemma StrandedToken() returns (steps: seq<Step>)
    ensures Runs(Initial, steps)
    ensures
      var s := Final(Initial, steps);
      && s.code.pending && s.code.depth == 0 && s.current !in s.finished
      && s.unsent == None && s.sent == 0 && s.deliveries == multiset{} && s.cancels == multiset{}
  {
    steps := QueueCancel();
    var t := Queued().(cancels := multiset{});
    steps := Extend(Initial, steps, Cancel(1), t);
    t := t.(code := Code(None, 0, true, true));
    steps := Extend(Initial, steps, Exit, t);
    t := t.(code := Code(None, 0, true, false), sent := 0);
    steps := Extend(Initial, steps, Handle(0), t);
  }

  // ----- When kernmini's own SIGINT is taken for Ctrl-C

  /** One SIGINT is under way exactly when one is announced. */
  predicate Matched(s: State) { Count(s.unsent.Some?) + s.sent == Count(s.code.woken) }

  /** The step requests an interrupt of user code on the main thread before the handler has run for
      the last SIGINT. */
  predicate Overtakes(s: State, a: Step) { a == Request && s.code.thread == Some(Main) && UnderWay(s) }

  /** The handler runs for a Ctrl-C while kernmini's own SIGINT is announced. */
  predicate Swallows(s: State, a: Step) { a == CtrlC && s.code.woken }

  lemma HandlerStaysMatched(s: State, a: Step)
    requires Matched(s) && Enabled(s, a) && (a.Handle? || a.CtrlC?)
    ensures Matched(Next(s, a)) <==> !Swallows(s, a)
    ensures Next(s, a).misread == s.misread
    ensures Next(s, a).swallowed == s.swallowed <==> !Swallows(s, a)
  {
  }

  lemma OtherStaysMatched(s: State, a: Step)
    requires Matched(s) && Enabled(s, a) && !a.Handle? && !a.CtrlC?
    ensures Matched(Next(s, a)) <==> !Overtakes(s, a)
    ensures Next(s, a).misread == s.misread && Next(s, a).swallowed == s.swallowed
  {
  }

  /** Signals and announcements stay matched exactly when no request overtakes the handler and no
      Ctrl-C uses up an announcement. A matched step misreads nothing. */
  lemma StaysMatched(s: State, a: Step)
    requires Matched(s) && Enabled(s, a)
    ensures Matched(Next(s, a)) <==> !Overtakes(s, a) && !Swallows(s, a)
    ensures Next(s, a).misread == s.misread
    ensures Next(s, a).swallowed == s.swallowed <==> !Swallows(s, a)
  {
    if a.Handle? || a.CtrlC? { HandlerStaysMatched(s, a); } else { OtherStaysMatched(s, a); }
  }

  /** No request of the run overtakes the handler, and no Ctrl-C comes while a SIGINT is announced. */
  ghost predicate OneAtATime(s: State, steps: seq<Step>)
    requires Runs(s, steps)
    decreases |steps|
  {
    steps == [] ||
    (!Overtakes(s, steps[0]) && !Swallows(s, steps[0]) && OneAtATime(Next(s, steps[0]), steps[1..]))
  }

  /** Then every SIGINT kernmini sends is recognised, and every Ctrl-C too. */
  lemma {:induction false} OwnSignalsRecognised(s: State, steps: seq<Step>)
    requires Matched(s) && Runs(s, steps) && OneAtATime(s, steps)
    ensures Matched(Final(s, steps))
    ensures Final(s, steps).misread == s.misread && Final(s, steps).swallowed == s.swallowed
    decreases |steps|
  {
    if steps != [] {
      StaysMatched(s, steps[0]);
      OwnSignalsRecognised(Next(s, steps[0]), steps[1..]);
    }
  }

  /** A run in which nobody requests an interrupt or presses Ctrl-C. */
  predicate Untroubled(steps: seq<Step>) { Request !in steps && CtrlC !in steps }

  lemma {:induction false} UntroubledIsOneAtATime(s: State, steps: seq<Step>)
    requires Runs(s, steps) && Untroubled(steps)
    ensures OneAtATime(s, steps)
    decreases |steps|
  {
    if steps != [] {
      assert steps[0] in steps;
      UntroubledIsOneAtATime(Next(s, steps[0]), steps[1..]);
    }
  }

  /** With a SIGINT under way that nothing announces, the run can go on to misread it. */
  lemma UnannouncedIsMisread(s: State) returns (more: seq<Step>)
    requires UnderWay(s) && !s.code.woken
    ensures Runs(s, more) && Untroubled(more) && Final(s, more).misread == s.misread + 1
  {
    more := [];
    if s.sent == 0 {
      RunOn(s, more, Kill);
      more := more + [Kill];
    }
    RunOn(s, more, Handle(0));
    more := more + [Handle(0)];
  }

  /** After any request that overtakes the handler, the run can go on to a misread signal: the handler
      runs for the first SIGINT, and then for the second. */
  lemma OvertakingIsMisread(s: State) returns (more: seq<Step>)
    requires Enabled(s, Request) && Overtakes(s, Request)
    ensures Runs(Next(s, Request), more) && Untroubled(more)
    ensures Final(Next(s, Request), more).misread == s.misread + 1
  {
    var t := Next(s, Request);
    var rest := UnannouncedIsMisread(Next(t, Handle(0)));
    more := [Handle(0)] + rest;
    assert more[1..] == rest;
  }

  ghost predicate CanMisread(s: State) { exists more :: Runs(s, more) && Untroubled(more) && Final(s, more).misread > s.misread }

  /** The exact condition: from a matched state, a step opens the way to a misread signal if and only
      if it is a request that overtakes the handler or a Ctrl-C that uses up an announcement. */
  lemma MisreadExactly(s: State, a: Step)
    requires Matched(s) && Enabled(s, a)
    ensures CanMisread(Next(s, a)) <==> Overtakes(s, a) || Swallows(s, a)
  {
    var t := Next(s, a);
    StaysMatched(s, a);
    if Overtakes(s, a) {
      var more := OvertakingIsMisread(s);
      assert Final(t, more).misread > t.misread;
    } else if Swallows(s, a) {
      var more := UnannouncedIsMisread(t);
      assert Final(t, more).misread > t.misread;
    } else {
      forall more | Runs(t, more) && Untroubled(more)
        ensures Final(t, more).misread == t.misread
      {
        UntroubledIsOneAtATime(t, more);
        OwnSignalsRecognised(t, more);
      }
    }
  }

  /** Two requests close together: the handler runs between the second request's section and its
      SIGINT, so that SIGINT finds no announcement and interrupts the whole kernel. */
  lemma OwnSignalMisread() returns (steps: seq<Step>)
    ensures Runs(Initial, steps) && CtrlC !in steps && Final(Initial, steps).misread == 1
  {
    steps := InterruptMain();
    var t := Interrupted().(unsent := None, sent := 1, deliveries := multiset{1});
    steps := Extend(Initial, steps, Kill, t);
    var more := OvertakingIsMisread(t);
    steps := Extend(Initial, steps, Request, Next(t, Request));
    steps := Join(Initial, steps, more);
  }

  /** Two runs one after the other. */
  lemma {:induction false} Join(s: State, a: seq<Step>, b: seq<Step>) returns (c: seq<Step>)
    requires Runs(s, a) && Runs(Final(s, a), b)
    ensures Runs(s, c) && Final(s, c) == Final(Final(s, a), b)
    ensures forall x | x in c :: x in a || x in b
    decreases |a|
  {
    if a == [] {
      c := b;
    } else {
      var d := Join(Next(s, a[0]), a[1..], b);
      c := [a[0]] + d;
      assert c[1..] == d;
    }
  }

  /** One request and a Ctrl-C between its section and its SIGINT. */
  lemma CtrlCSwallowed() returns (steps: seq<Step>)
    ensures Runs(Initial, steps) && Final(Initial, steps).misread == 1 && Final(Initial, steps).swallowed == 1
  {
    steps := InterruptMain();
    var t := Interrupted();
    t := t.(code := Code(Some(Main), 1, false, false), raises := 1, swallowed := 1);
    steps := Extend(Initial, steps, CtrlC, t);
    t := t.(unsent := None, sent := 1, deliveries := multiset{1});
    steps := Extend(Initial, steps, Kill, t);
    t := t.(sent := 0, misread := 1);
    steps := Extend(Initial, steps, Handle(0), t);
  }
}
