/** What holds over whole runs of a shell: every interleaving of its own steps, its execution
    task, and the arrival of requests and controls. */
module SchedulerRuns {
  import opened Options
  import opened Messages
  import opened Scheduler
  import opened SchedulerInv
  import opened SchedulerOrder
  import opened SchedulerLanes
  import opened SchedulerCount
  import opened SchedulerProgress

  ghost predicate Good(s: Shell) {
    Conserved(s) && InOrder(s.sent, s.dispatched) && Kept(s) && Counted(s) && ShortTask(s)
  }

  lemma FreshGood()
    ensures Good(Fresh)
  {
    forall n: nat ensures Transcribed(Fresh, n) {
      assert About(Fresh.log, n) == [];
    }
    assert Structured(Fresh);
  }

  lemma StepGood(s: Shell, a: Step)
    requires Good(s) && Enabled(s, a)
    ensures Good(Next(s, a))
  {
    StepConserves(s, a);
    StepInOrder(s, a);
    StepKeeps(s, a);
    StepCounts(s, a);
    if Internal(a) { StepProgress(s, a); }
  }

  ghost predicate Runs(s: Shell, steps: seq<Step>)
    decreases |steps|
  {
    InRange(s) && (steps != [] ==> Enabled(s, steps[0]) && Runs(Next(s, steps[0]), steps[1..]))
  }

  ghost function Final(s: Shell, steps: seq<Step>): (t: Shell)
    requires Runs(s, steps)
    ensures InRange(t)
    decreases |steps|
  {
    if steps == [] then s else Final(Next(s, steps[0]), steps[1..])
  }

  lemma {:induction false} RunsStayGood(s: Shell, steps: seq<Step>)
    requires Good(s) && Runs(s, steps)
    ensures Good(Final(s, steps))
    decreases |steps|
  {
    if steps != [] {
      StepGood(s, steps[0]);
      RunsStayGood(Next(s, steps[0]), steps[1..]);
    }
  }

  /** The state a run from a fresh shell ends in. */
  ghost function Reached(steps: seq<Step>): (s: Shell)
    requires Runs(Fresh, steps)
    ensures Good(s)
  {
    FreshGood();
    RunsStayGood(Fresh, steps);
    Final(Fresh, steps)
  }

  // ----- Conservation

  /** Answered: the transcript is complete and nothing runs for the request any more. */
  ghost predicate Answered(s: Shell, n: nat) { Bracket(About(s.log, n)) && !IsActive(s, n) }

  /** In every reachable state each enqueued execute request is in exactly one place. It is
      answered at most once, not at all while it is queued, held or displaced, and exactly once
      when it is in none of the other places. */
  lemma EveryRequestHasOnePlace(steps: seq<Step>, n: nat)
    requires Runs(Fresh, steps) && n < Reached(steps).order && IsExecute(Reached(steps), n)
    ensures
      var s := Reached(steps);
      && One(n in s.queue) + One(IsActive(s, n)) + One(s.held == Some(n)) + One(n in s.displaced) + One(Answered(s, n)) == 1
      && (Answered(s, n) ==> Replies(About(s.log, n)) == 1)
      && (n in s.queue || IsHeld(s, n) ==> Replies(About(s.log, n)) == 0)
      && Replies(About(s.log, n)) <= 1
  {
    var s := Reached(steps);
    assert Transcribed(s, n);
    PlaceReplies(s, n);
  }

  lemma PlaceReplies(s: Shell, n: nat)
    requires Conserved(s) && n < s.order && IsExecute(s, n)
    ensures n in s.queue || IsHeld(s, n) ==> Replies(About(s.log, n)) == 0 && !Bracket(About(s.log, n))
    ensures !(n in s.queue || IsHeld(s, n) || IsActive(s, n)) ==> Bracket(About(s.log, n))
    ensures Bracket(About(s.log, n)) ==> Replies(About(s.log, n)) == 1
    ensures Replies(About(s.log, n)) <= 1
  {
    var ms := About(s.log, n);
    assert Transcribed(s, n);
    if Bracket(ms) {
      BracketRepliesOnce(ms);
    } else if IsActive(s, n) && n !in s.queue {
      ScriptPrefixReplies(s.active.value, s.sent[n], ms);
    } else {
      NoReplies(ms);
    }
  }

  lemma {:induction false} RepliesAppend(a: seq<Event>, b: seq<Event>)
    ensures Replies(a + b) == Replies(a) + Replies(b)
  {
    if b == [] {
      assert a + b == a;
    } else {
      var c := a + b;
      assert c[..|c| - 1] == a + b[..|b| - 1];
      RepliesAppend(a, b[..|b| - 1]);
    }
  }

  /** A running task has replied at most once. */
  lemma ScriptPrefixReplies(a: Active, r: Request, ms: seq<Event>)
    requires Tells(a, r, ms)
    ensures Replies(ms) <= 1
  {
    var open := OpenScript(a.n, r, a.count);
    NoReplies(open);
    match a.phase {
      case Starting(pre) => RepliesAppend(ms, pre);
      case Running =>
      case Ending(post, o) =>
        AnsweringPathsAreBrackets(a.n, r, a.count, o, "", "", []);
        BracketRepliesOnce(open + EndScript(a.n, r, a.count, o));
        RepliesAppend(ms, post);
    }
  }

  // ----- The leak, and exactly when every request is answered

  /** The step pops a hold while another request is held. */
  ghost predicate Displaces(s: Shell, a: Step)
    requires InRange(s) && Enabled(s, a)
  {
    a.Pass? &&
    var t := Settle(s);
    && !t.point.Exited? && !t.interrupting && t.held.Some? && Runnable(t).Some?
    && var r := t.sent[Runnable(t).value]; r.kind.Execute? && r.hasCode && r.hold
  }

  lemma ControlDisplacesNothing(s: Shell)
    requires InRange(s) && s.applied < |s.commands|
    ensures ApplyControl(s).displaced == s.displaced
  {
  }

  lemma SettleDisplacesNothing(s: Shell)
    requires InRange(s)
    ensures Settle(s).displaced == s.displaced && Settle(s).held == s.held
  {
  }

  lemma PassDisplaces(s: Shell, service: Service)
    requires Good(s) && Enabled(s, Pass(service))
    ensures Next(s, Pass(service)).displaced ==
              if Displaces(s, Pass(service)) then s.displaced + {Settle(s).held.value} else s.displaced
    ensures Displaces(s, Pass(service)) ==> Settle(s).held.value !in s.displaced
  {
    SettleDisplacesNothing(s);
    var t := Settle(s);
    assert s.held.Some? ==> s.held.value !in s.displaced;
    if !t.point.Exited? && Runnable(t).Some? { HandleDisplaces(t, Runnable(t).value, service); }
  }

  lemma HandleDisplaces(s: Shell, n: nat, service: Service)
    requires InRange(s) && n < s.order
    ensures Handle(s, n, service).displaced ==
              s.displaced + if IsExecute(s, n) && !s.interrupting && s.sent[n].hasCode && s.sent[n].hold && s.held.Some?
                            then {s.held.value} else {}
  {
  }

  /** A hold is lost exactly when another hold is popped over it. */
  lemma DisplacedGrowth(s: Shell, a: Step)
    requires Good(s) && Enabled(s, a)
    ensures Next(s, a).displaced == if Displaces(s, a) then s.displaced + {Settle(s).held.value} else s.displaced
    ensures Displaces(s, a) ==> Settle(s).held.value !in s.displaced
  {
    match a {
      case TakeControl => if s.applied < |s.commands| { ControlDisplacesNothing(s); }
      case WakeControl => ControlDisplacesNothing(s);
      case Pass(service) => PassDisplaces(s, service);
      case _ =>
    }
  }

  /** No step of the run pops a hold over a hold. */
  ghost predicate NeverDisplaces(s: Shell, steps: seq<Step>)
    requires Runs(s, steps)
    decreases |steps|
  {
    steps == [] || (!Displaces(s, steps[0]) && NeverDisplaces(Next(s, steps[0]), steps[1..]))
  }

  lemma {:induction false} DisplacedOverRun(s: Shell, steps: seq<Step>)
    requires Good(s) && Runs(s, steps)
    ensures s.displaced <= Final(s, steps).displaced
    ensures Final(s, steps).displaced == s.displaced <==> NeverDisplaces(s, steps)
    decreases |steps|
  {
    if steps != [] {
      var t := Next(s, steps[0]);
      StepGood(s, steps[0]);
      DisplacedGrowth(s, steps[0]);
      DisplacedOverRun(t, steps[1..]);
      if Displaces(s, steps[0]) { assert Settle(s).held.value in t.displaced; }
    }
  }

  /** A displaced hold is never answered, however the run goes on. */
  lemma DisplacedForever(s: Shell, steps: seq<Step>, n: nat)
    requires Good(s) && Runs(s, steps) && n in s.displaced
    ensures n in Final(s, steps).displaced && Replies(About(Final(s, steps).log, n)) == 0
  {
    RunsStayGood(s, steps);
    DisplacedOverRun(s, steps);
    PlaceReplies(Final(s, steps), n);
  }

  /** When a shell returns because it was stopped, every execute request sent to it has exactly
      one reply if and only if no hold was ever popped over another hold and no execute request
      was still in the channel. */
  lemma StopExitAnswersAll(steps: seq<Step>)
    requires Runs(Fresh, steps) && Reached(steps).point == Exited(Stopped)
    ensures
      var s := Reached(steps);
      (forall n: nat | IsExecute(s, n) :: Replies(About(s.log, n)) == 1)
      <==> NeverDisplaces(Fresh, steps) && (forall n: nat | s.order <= n :: !IsExecute(s, n))
  {
    var s := Reached(steps);
    FreshGood();
    DisplacedOverRun(Fresh, steps);
    assert NeverDisplaces(Fresh, steps) <==> s.displaced == {};
    forall n: nat | IsExecute(s, n)
      ensures Replies(About(s.log, n)) == 1 <==> n < s.order && n !in s.displaced
    {
      assert Transcribed(s, n);
      if n < s.order { PlaceReplies(s, n); }
    }
    forall n | n in s.displaced ensures IsExecute(s, n) {
    }
  }

  function Hold(priority: real): Request { Request("hold", Execute, priority, true, true, false, true, true) }

  /** A shell with no work but perhaps a hold, at the head of its loop. */
  ghost predicate AtRest(s: Shell) {
    && InRange(s) && s.point.Head? && s.queue == {} && s.order == |s.sent| && s.applied == |s.commands|
    && s.active.None? && !s.interrupting && !s.stopping
  }

  /** Such a shell reads a hold and comes to its checks ... */
  lemma HoldIsRead(s: Shell, r: Request) returns (steps: seq<Step>)
    requires AtRest(s)
    ensures Runs(s, steps) && Final(s, steps) == s.(sent := s.sent + [r], order := s.order + 1, queue := {s.order}, point := Check)
  {
    steps := [Send(r), TakeIncoming, TakeControl];
    var s1 := s.(sent := s.sent + [r]);
    var s2 := s1.(order := s.order + 1, queue := {s.order}, point := Controls);
    var s3 := s2.(point := Check);
    assert Next(s, steps[0]) == s1 && Next(s2, steps[2]) == s3;
    assert Next(s1, steps[1]) == s2 by { assert s1.queue + Span(s.order, s.order + 1) == {s.order}; }
    assert Runs(s3, []) && steps[2..][1..] == [] && Runs(s2, steps[2..]) && Final(s2, steps[2..]) == s3;
    assert steps[1..][1..] == steps[2..] && Runs(s1, steps[1..]) && Final(s1, steps[1..]) == s3;
  }

  /** ... and takes the hold, whose priority is above that of a request that is held. */
  lemma HoldIsTaken(s: Shell, n: nat)
    requires InRange(s) && s.point.Check? && s.queue == {n} && s.active.None? && !s.interrupting && !s.stopping
    requires IsExecute(s, n) && s.sent[n].hasCode && s.sent[n].hold
    requires s.held.Some? ==> s.sent[n].priority > s.sent[s.held.value].priority
    ensures Runs(s, [Pass(Fine)]) && Final(s, [Pass(Fine)]) == Handle(s, n, Fine)
  {
    assert Settle(s) == s && Eligible(s, n) && Runnable(s) == Some(n);
    assert Next(s, Pass(Fine)) == Handle(s, n, Fine);
    assert [Pass(Fine)][1..] == [] && Runs(Handle(s, n, Fine), []);
  }

  lemma HoldTakesOver(s: Shell, r: Request) returns (steps: seq<Step>)
    requires AtRest(s) && r.kind.Execute? && r.hasCode && r.hold
    requires s.held.Some? ==> r.priority > s.sent[s.held.value].priority
    ensures Runs(s, steps)
    ensures
      var t := Final(s, steps);
      && AtRest(t) && t.held == Some(|s.sent|) && t.sent == s.sent + [r]
      && t.displaced == s.displaced + if s.held.Some? then {s.held.value} else {}
  {
    steps := HoldIsRead(s, r);
    HoldIsTaken(Final(s, steps), s.order);
    RunOn(s, steps, [Pass(Fine)]);
    steps := steps + [Pass(Fine)];
  }

  lemma {:induction false} RunOn(s: Shell, a: seq<Step>, b: seq<Step>)
    requires Runs(s, a) && Runs(Final(s, a), b)
    ensures Runs(s, a + b) && Final(s, a + b) == Final(Final(s, a), b)
    decreases |a|
  {
    if a == [] {
      assert a + b == b;
    } else {
      assert (a + b)[1..] == a[1..] + b;
      RunOn(Next(s, a[0]), a[1..], b);
    }
  }

  /** A hold popped over a less urgent hold: the first is lost. */
  lemma HoldOverHold() returns (steps: seq<Step>)
    ensures Runs(Fresh, steps) && Reached(steps).displaced == {0} && Reached(steps).held == Some(1)
    ensures !NeverDisplaces(Fresh, steps)
  {
    var first := HoldTakesOver(Fresh, Hold(0.0));
    var second := HoldTakesOver(Final(Fresh, first), Hold(1.0));
    RunOn(Fresh, first, second);
    steps := first + second;
    FreshGood();
    DisplacedOverRun(Fresh, steps);
  }

  /** A request that is sent between the two drains, followed by a stop, is never read. */
  lemma RequestLostAtStop(r: Request) returns (steps: seq<Step>)
    ensures Runs(Fresh, steps)
    ensures Reached(steps).point == Exited(Stopped) && Reached(steps).sent == [r] && Reached(steps).order == 0
  {
    assert DrainIncoming(Fresh) == Fresh;
    var s1 := Fresh.(point := Controls);
    var s2 := s1.(sent := [r]);
    var s3 := s2.(commands := [Stop]);
    var before := [TakeIncoming, Send(r), Command(Stop)];
    assert before[1..] == [Send(r), Command(Stop)] && before[2..] == [Command(Stop)];
    assert before[1..][1..] == before[2..] && before[2..][1..] == [];
    assert Next(s2, before[2]) == s3 && Runs(s3, []) && Final(s2, before[2..]) == s3;
    assert Next(s1, before[1]) == s2 && Final(s1, before[1..]) == s3;
    var after := StopAtOnce(s3);
    RunOn(Fresh, before, after);
    steps := before + after;
  }

  /** A shell that finds a stop in its second drain, with nothing to do that it has read. */
  lemma StopAtOnce(s: Shell) returns (steps: seq<Step>)
    requires InRange(s) && s.point.Controls? && s.applied + 1 == |s.commands| && s.commands[s.applied].Stop?
    requires !s.interrupting && s.queue == {} && s.active.None? && s.held.None?
    ensures Runs(s, steps) && forall a | a in steps :: Internal(a)
    ensures Final(s, steps) == s.(applied := s.applied + 1, stopping := true, point := Exited(Stopped))
  {
    steps := [TakeControl, TakeControl, Pass(Fine)];
    var s1 := s.(applied := s.applied + 1, stopping := true);
    var s2 := s1.(point := Check);
    var s3 := s2.(point := Exited(Stopped));
    assert Next(s, steps[0]) == s1 && Next(s1, steps[1]) == s2 && Next(s2, steps[2]) == s3;
    assert Runs(s3, []) && Final(s3, []) == s3;
    assert steps[2..][1..] == [] && Runs(s2, steps[2..]) && Final(s2, steps[2..]) == s3;
    assert steps[1..][1..] == steps[2..] && Runs(s1, steps[1..]) && Final(s1, steps[1..]) == s3;
  }

  /** A shell that is fresh but for a shutdown request, which it has read and is about to pop. */
  function ReadyToShutDown(r: Request): Shell { Fresh.(sent := [r], order := 1, queue := {0}, point := Check) }

  lemma GetReady(r: Request) returns (steps: seq<Step>)
    ensures Runs(Fresh.(sent := [r]), steps) && forall a | a in steps :: Internal(a)
    ensures Final(Fresh.(sent := [r]), steps) == ReadyToShutDown(r)
  {
    steps := [TakeIncoming, TakeControl];
    var s := Fresh.(sent := [r]);
    var s1 := ReadyToShutDown(r).(point := Controls);
    assert Next(s, steps[0]) == s1 by { assert s.queue + Span(0, 1) == {0}; }
    assert Next(s1, steps[1]) == ReadyToShutDown(r);
    assert Runs(ReadyToShutDown(r), []);
    assert steps[1..][1..] == [] && Runs(s1, steps[1..]) && Final(s1, steps[1..]) == ReadyToShutDown(r);
  }

  /** Whatever controls it has not read, it returns without applying them. */
  lemma PassShutsDown(s: Shell, r: Request)
    requires r.kind.Shutdown? && s == ReadyToShutDown(r).(commands := s.commands)
    ensures InRange(s) && Enabled(s, Pass(Fine))
    ensures
      var t := Next(s, Pass(Fine));
      t.point == Exited(ShutDown) && t.sent == s.sent && t.commands == s.commands && t.applied == 0
  {
    assert Settle(s) == s && Eligible(s, 0) && Runnable(s) == Some(0);
    assert Next(s, Pass(Fine)) == Handle(s, 0, Fine);
  }

  /** A shell with nothing to do reads a stop and comes to its checks. */
  lemma ReadStop(s: Shell) returns (steps: seq<Step>)
    requires InRange(s) && s.point.Controls? && s.applied == |s.commands|
    ensures Runs(s, steps)
    ensures Final(s, steps) == s.(commands := s.commands + [Stop], applied := s.applied + 1, stopping := true, point := Check)
  {
    steps := [Command(Stop), TakeControl, TakeControl];
    var s1 := s.(commands := s.commands + [Stop]);
    var s2 := s1.(applied := s.applied + 1, stopping := true);
    var s3 := s2.(point := Check);
    assert Next(s, steps[0]) == s1 && Next(s1, steps[1]) == s2 && Next(s2, steps[2]) == s3;
    assert Runs(s3, []) && steps[2..][1..] == [] && Runs(s2, steps[2..]) && Final(s2, steps[2..]) == s3;
    assert steps[1..][1..] == steps[2..] && Runs(s1, steps[1..]) && Final(s1, steps[1..]) == s3;
  }

  lemma FirstDrain()
    ensures Runs(Fresh, [TakeIncoming]) && Final(Fresh, [TakeIncoming]) == Fresh.(point := Controls)
  {
    assert DrainIncoming(Fresh) == Fresh;
    assert [TakeIncoming][1..] == [] && Runs(Fresh.(point := Controls), []);
  }

  /** A request sent between the drain of the controls and the checks is lost if the shell is already
      stopping. */
  lemma RequestLostAtCheck(r: Request) returns (steps: seq<Step>, more: seq<Step>)
    ensures Loses(steps, r, more) && Reached(steps).point.Check?
  {
    FirstDrain();
    var stop := ReadStop(Fresh.(point := Controls));
    RunOn(Fresh, [TakeIncoming], stop);
    steps, more := [TakeIncoming] + stop, [Pass(Fine)];
    var s := Final(Fresh, steps);
    LastPass(s.(sent := [r]));
    assert Next(s, Send(r)) == s.(sent := [r]);
  }

  lemma LastPass(s: Shell)
    requires InRange(s) && s.point.Check? && s.stopping && !s.interrupting && s.queue == {} && s.active.None? && s.held.None?
    ensures Runs(s, [Pass(Fine)]) && Final(s, [Pass(Fine)]) == s.(point := Exited(Stopped))
  {
    var t := s.(point := Exited(Stopped));
    assert Next(s, Pass(Fine)) == t;
    assert [Pass(Fine)][1..] == [] && Runs(t, []);
  }

  // ----- Which requests are sure to be read

  /** Request `n` has been read, or the shell will drain its requests before it can stop. */
  predicate SureToRead(s: Shell, n: nat) {
    n < s.order || s.point.Head? || s.point.Select? || (s.point.Exited? && s.point != Exited(Stopped))
  }

  lemma StepStaysSure(s: Shell, a: Step, n: nat)
    requires InRange(s) && Enabled(s, a) && n < |s.sent| && SureToRead(s, n)
    ensures SureToRead(Next(s, a), n) && n < |Next(s, a).sent|
  {
  }

  lemma {:induction false} RunStaysSure(s: Shell, steps: seq<Step>, n: nat)
    requires Runs(s, steps) && n < |s.sent| && SureToRead(s, n)
    ensures SureToRead(Final(s, steps), n)
    decreases |steps|
  {
    if steps != [] {
      StepStaysSure(s, steps[0], n);
      RunStaysSure(Next(s, steps[0]), steps[1..], n);
    }
  }

  /** The run sends `r` after `steps`, goes on with `more`, and stops without having read it. */
  ghost predicate Loses(steps: seq<Step>, r: Request, more: seq<Step>) {
    && Runs(Fresh, steps) && Enabled(Final(Fresh, steps), Send(r)) && Runs(Next(Final(Fresh, steps), Send(r)), more)
    && var t := Final(Next(Final(Fresh, steps), Send(r)), more);
       t.point == Exited(Stopped) && t.order <= |Final(Fresh, steps).sent|
  }

  /** A request sent at the head of the loop or in `select!` is never lost. */
  lemma SentAtRestIsRead(steps: seq<Step>, r: Request, more: seq<Step>)
    requires Loses(steps, r, more)
    ensures Reached(steps).point.Controls? || Reached(steps).point.Check?
  {
    var s := Final(Fresh, steps);
    if s.point.Head? || s.point.Select? { RunStaysSure(Next(s, Send(r)), more, |s.sent|); }
  }

  /** The exact condition, by where the shell is when the request is sent: every run reads it before it
      stops if and only if the shell is at the head of its loop or in `select!`. */
  lemma SureToBeReadExactly(p: Point)
    requires !p.Exited?
    ensures (forall steps, r, more | Loses(steps, r, more) :: Reached(steps).point != p) <==> p.Head? || p.Select?
  {
    forall steps, r, more | Loses(steps, r, more)
      ensures Reached(steps).point.Controls? || Reached(steps).point.Check?
    {
      SentAtRestIsRead(steps, r, more);
    }
    var r := Hold(0.0);
    if p.Controls? {
      var steps, more := LostAtControls(r);
      assert Loses(steps, r, more) && Reached(steps).point == p;
    } else if p.Check? {
      var steps, more := RequestLostAtCheck(r);
      assert Loses(steps, r, more) && Reached(steps).point == p;
    }
  }

  /** The run of `RequestLostAtStop`, cut at the request. */
  lemma LostAtControls(r: Request) returns (steps: seq<Step>, more: seq<Step>)
    ensures Loses(steps, r, more) && Reached(steps).point.Controls?
  {
    FirstDrain();
    var s := Fresh.(point := Controls);
    steps := [TakeIncoming];
    var s1 := s.(sent := [r]);
    var s2 := s1.(commands := [Stop]);
    var stop := StopAtOnce(s2);
    more := [Command(Stop)] + stop;
    assert more[1..] == stop && Next(s1, more[0]) == s2;
    assert Next(s, Send(r)) == s1;
  }

  /** An interrupt sent after the last request, as when a subshell is deleted, empties the channel:
      then only displaced holds stay unanswered at a Stop exit. */
  lemma InterruptedStopReadsAll(steps: seq<Step>, j: nat)
    requires Runs(Fresh, steps) && j < Reached(steps).applied
    requires Reached(steps).commands[j] == Interrupt(|Reached(steps).sent|)
    ensures Reached(steps).order == |Reached(steps).sent|
  {
    assert Reached(steps).commands[j].cut <= Reached(steps).fence;
  }

  // ----- Order

  /** While a request waits, nothing it precedes leaves the queue, and requests leave the queue in
      an order that puts every request after all that precede it. */
  lemma ServedInOrder(steps: seq<Step>, a: nat, b: nat)
    requires Runs(Fresh, steps) && Precedes(Reached(steps).sent, a, b)
    ensures
      var s := Reached(steps);
      && (a in s.queue ==> b !in s.dispatched)
      && (forall j | 0 <= j < |s.dispatched| && s.dispatched[j] == b :: a in s.dispatched[..j])
  {
    var s := Reached(steps);
    if b in s.dispatched {
      var j :| 0 <= j < |s.dispatched| && s.dispatched[j] == b;
      assert a in s.dispatched[..j];
      assert a in s.dispatched;
    }
  }

  // ----- The lane

  /** The execution lane and the hold in every reachable state. */
  lemma LaneInvariant(steps: seq<Step>)
    requires Runs(Fresh, steps)
    ensures
      var s := Reached(steps);
      s.active.Some? && s.held.Some? ==> s.sent[s.active.value.n].priority > s.sent[s.held.value].priority
  {
  }

  /** At a pop, an interrupt in progress still has its execution, so no execute request is handled
      while interrupting: the branch of `handle_item` that answers KeyboardInterrupt is dead. */
  lemma NoExecuteWhileInterrupting(steps: seq<Step>)
    requires Runs(Fresh, steps) && Reached(steps).point.Check?
    ensures
      var t := Settle(Reached(steps));
      && (t.interrupting ==> t.active.Some?)
      && (t.interrupting && Runnable(t).Some? ==> !IsExecute(t, Runnable(t).value))
  {
    SettleKept(Reached(steps));
  }

  lemma ControlKeepsExecution(s: Shell)
    requires InRange(s) && s.applied < |s.commands|
    ensures ApplyControl(s).active.None? <==> s.active.None?
    ensures s.active.Some? ==> ApplyControl(s).active.value.n == s.active.value.n
  {
  }

  /** A running execution is never replaced: only a finished one makes room. */
  lemma RunningIsNeverOverwritten(s: Shell, a: Step)
    requires Good(s) && Enabled(s, a) && s.active.Some? && !Finished(s.active.value)
    ensures Next(s, a).active.Some? && Next(s, a).active.value.n == s.active.value.n
  {
    match a {
      case TakeControl => if s.applied < |s.commands| { ControlKeepsExecution(s); }
      case WakeControl => ControlKeepsExecution(s);
      case _ =>
    }
  }

  // ----- Interrupts

  lemma EndHoldAbout(s: Shell, status: string, n: nat)
    requires s.held.Some?
    ensures About(EndHold(s, status).log, n) ==
              About(s.log, n) + if s.held == Some(n) then HoldScript(n, s.count, status) else []
  {
    AboutPublish(s.log, HoldScript(s.held.value, s.count, status), s.held.value);
  }

  lemma AbortPendingAbout(s: Shell, n: nat)
    requires InRange(s) && IsExecute(s, n)
    ensures About(AbortPending(s).log, n) ==
              About(s.log, n) + if n >= s.order || n in s.queue then AbortScript(n, s.count) else []
    ensures forall m | m in AbortPending(s).queue :: !IsExecute(s, m)
  {
    var d := DrainIncoming(s);
    RankedDistinct(d.sent, Executes(d));
    AbortAbout(d, Ranked(d.sent, Executes(d)), n);
  }

  /** What applying an interrupt does to each execute request sent so far: the held one is
      answered KeyboardInterrupt, each waiting one is answered aborted, and the others, the running
      one among them, keep their transcripts. */
  lemma InterruptAnswers(s: Shell, n: nat)
    requires Good(s) && IsExecute(s, n)
    ensures
      About(ApplyInterrupt(s).log, n) ==
        if n >= s.order || n in s.queue then AbortScript(n, s.count)
        else if s.held == Some(n) then About(s.log, n) + ErrorScript(n, "KeyboardInterrupt", s.count)
        else About(s.log, n)
  {
    var i := s.(interrupting := true, active := Poke(s.active));
    assert Transcribed(s, n);
    if s.held.Some? {
      EndHoldAbout(i, "interrupt", n);
      AbortPendingAbout(EndHold(i, "interrupt"), n);
    } else {
      AbortPendingAbout(i, n);
    }
  }

  /** Stop on error: the end of an execution answers aborted what waits, exactly when the execution's own
      transcript holds an error reply, its request asked for that, and no interrupt is in progress. */
  lemma FailureAnswers(s: Shell, n: nat)
    requires Good(s) && IsExecute(s, n) && s.active.Some? && Finished(s.active.value)
    requires s.active.value.phase.outcome != Broke(Closed)
    ensures
      var a := s.active.value;
      && (HasError(About(s.log, a.n)) <==> !a.phase.outcome.Returned?)
      && About(Complete(s).log, n) ==
         if HasError(About(s.log, a.n)) && s.sent[a.n].stopOnError && !s.interrupting && (n >= s.order || n in s.queue)
         then AbortScript(n, s.count) else About(s.log, n)
  {
    var a := s.active.value;
    assert Transcribed(s, n) && Transcribed(s, a.n);
    assert About(s.log, a.n) + [] == About(s.log, a.n);
    ErrorByOutcome(a.n, s.sent[a.n], a.count, a.phase.outcome);
    AbortPendingAbout(s.(active := None), n);
  }

  /** The same of any state in which the request is where its transcript says. */
  lemma HoldEndAbout(s: Shell, status: string, n: nat)
    requires InRange(s) && Transcribed(s, n) && IsExecute(s, n) && s.held.Some? && s.held.value !in s.queue
    ensures
      About(FailHold(s, status).log, n) ==
        if s.held == Some(n) then About(s.log, n) + HoldScript(n, s.count, status)
        else if HoldError(status).Some? && (n >= s.order || n in s.queue) then AbortScript(n, s.count)
        else About(s.log, n)
  {
    EndHoldAbout(s, status, n);
    AbortPendingAbout(EndHold(s, status), n);
  }

  /** Releasing or timing out a hold answers it by its status, and answers aborted what waits exactly
      when the hold failed. */
  lemma HoldEndAnswers(s: Shell, status: string, n: nat)
    requires Good(s) && IsExecute(s, n) && s.held.Some?
    ensures
      About(FailHold(s, status).log, n) ==
        if s.held == Some(n) then About(s.log, n) + HoldScript(n, s.count, status)
        else if HoldError(status).Some? && (n >= s.order || n in s.queue) then AbortScript(n, s.count)
        else About(s.log, n)
  {
    assert Transcribed(s, n);
    HoldEndAbout(s, status, n);
  }

  /** The running execution gets an interrupt request, and no execute request waits or is held
      any more. */
  lemma InterruptClears(s: Shell)
    requires Good(s)
    ensures
      var t := ApplyInterrupt(s);
      && t.interrupting && t.held.None? && t.order == |s.sent| && t.active == Poke(s.active)
      && forall m | m in t.queue :: !IsExecute(t, m)
  {
  }

  /** An interrupt is a clean cut: once the control at position `j` has been applied, every execute
      request sent before that control was sent is past the queue and past the hold for good. It
      is answered, or displaced, or it is the running one and has been sent an interrupt request. */
  lemma InterruptCutsOff(steps: seq<Step>, j: nat, n: nat)
    requires Runs(Fresh, steps)
    requires j < Reached(steps).applied && Reached(steps).commands[j].Interrupt?
    requires n < Reached(steps).commands[j].cut && IsExecute(Reached(steps), n)
    ensures
      var s := Reached(steps);
      && n < s.order && n !in s.queue && s.held != Some(n)
      && (Answered(s, n) || n in s.displaced || (IsActive(s, n) && s.active.value.interrupts > 0))
  {
    var s := Reached(steps);
    assert s.commands[j].cut <= s.fence;
    PlaceReplies(s, n);
  }

  /** The failure of an interrupted execution aborts nothing that arrived after the interrupt. */
  lemma InterruptedFailureAbortsNothing(steps: seq<Step>)
    requires Runs(Fresh, steps)
    requires
      var s := Reached(steps);
      s.active.Some? && s.active.value.interrupts > 0 && Finished(s.active.value)
    ensures
      var s := Reached(steps);
      Complete(s) == s.(active := None) || Complete(s) == s.(point := Exited(Crashed))
  {
  }

  // ----- Counts

  /** Executions that store history are numbered 1, 2, 3, ... in the order they start; one that
      does not reports the last number. */
  lemma ExecutionsAreNumbered(steps: seq<Step>, i: nat)
    requires Runs(Fresh, steps) && i < |Reached(steps).log| && Reached(steps).log[i].Spawned?
    ensures
      var s := Reached(steps);
      var e := s.log[i];
      e.n < |s.sent| && e.count == Stored(s.sent, s.log[..i]) + if Stores(s.sent[e.n]) then 1 else 0
  {
    var s := Reached(steps);
    assert CountedAt(s.sent, s.log, i);
    assert s.log[..i + 1][..i] == s.log[..i];
  }

  // ----- Termination

  lemma {:induction false} InternalRunsAreShort(s: Shell, steps: seq<Step>)
    requires Good(s) && Runs(s, steps) && forall a | a in steps :: Internal(a)
    ensures |steps| + Measure(Final(s, steps)) <= Measure(s)
    ensures s.stopping ==> Final(s, steps).stopping
    decreases |steps|
  {
    if steps != [] {
      assert Internal(steps[0]);
      StepGood(s, steps[0]);
      StepProgress(s, steps[0]);
      StepKeepsStopping(s, steps[0]);
      InternalRunsAreShort(Next(s, steps[0]), steps[1..]);
    }
  }

  /** Only a control makes a shell stop, and nothing takes it back. */
  lemma StepKeepsStopping(s: Shell, a: Step)
    requires InRange(s) && Enabled(s, a)
    ensures s.stopping ==> Next(s, a).stopping
    ensures Next(s, a).stopping && !s.stopping ==>
              s.applied < |s.commands| && s.commands[s.applied].Stop? && Next(s, a).applied == s.applied + 1
  {
  }

  /** A stopping shell reaches its exit: without new arrivals, no run of its own and its task's
      steps is longer than the measure, and a run that has not reached an exit can go on. */
  lemma StoppingReachesExit(s: Shell, steps: seq<Step>)
    requires Good(s) && s.stopping && Runs(s, steps) && forall a | a in steps :: Internal(a)
    ensures |steps| <= Measure(s)
    ensures var t := Final(s, steps); t.point.Exited? || (Internal(Choice(t)) && Enabled(t, Choice(t)))
  {
    InternalRunsAreShort(s, steps);
    RunsStayGood(s, steps);
    var t := Final(s, steps);
    if !t.point.Exited? { NeverStuck(t); }
  }
}
