/** Requests of one shell session, the messages the engine publishes about them, and the
    transcript of one request: the engine's own messages in the order they were published. */
module Messages {
  import opened Options

  /** What the scheduler looks at in `msg_type`. */
  datatype Kind = Execute | Shutdown | Service

  /** The fields of a shell request that the scheduler reads. A missing `priority` is 0.0, a
      missing `silent` or `hold` is false, a missing `store_history` or `stop_on_error` is true. */
  datatype Request = Request(msgId: string, kind: Kind, priority: real, hasCode: bool, hold: bool,
                             silent: bool, storeHistory: bool, stopOnError: bool)

  datatype ReplyStatus = Ok | Error(ename: string) | Aborted

  /** Everything a shell and its execution task do that an observer can see. Requests are named
      by their order stamp. `Spawned`, `Served` and `Acked` are not messages: they mark the spawn
      of an execution task, the hand-over of a non-execute request, and the answer to a release. */
  datatype Event =
    | Busy(n: nat)
    | Idle(n: nat)
    | Input(n: nat, count: nat)
    | Result(n: nat, count: nat)
    | Failure(n: nat, ename: string)
    | Reply(n: nat, status: ReplyStatus, reported: Option<nat>)
    | Spawned(n: nat, count: nat)
    | Served(n: nat)
    | Acked(found: bool)

  /** `e` is a message the engine publishes or replies with for execute request `n`. */
  predicate Own(e: Event, n: nat) {
    !e.Acked? && !e.Spawned? && !e.Served? && e.n == n
  }

  /** The transcript of request `n`. */
  function About(log: seq<Event>, n: nat): seq<Event> {
    if log == [] then []
    else
      var rest := About(log[..|log| - 1], n);
      if Own(log[|log| - 1], n) then rest + [log[|log| - 1]] else rest
  }

  lemma {:induction false} AboutAppend(a: seq<Event>, b: seq<Event>, n: nat)
    ensures About(a + b, n) == About(a, n) + About(b, n)
  {
    if b == [] {
      assert a + b == a;
    } else {
      var c := a + b;
      assert c[..|c| - 1] == a + b[..|b| - 1];
      AboutAppend(a, b[..|b| - 1], n);
    }
  }

  /** A chunk of messages about one request is its own transcript, and nobody else's. */
  lemma {:induction false} AboutOwn(ms: seq<Event>, n: nat)
    requires forall e | e in ms :: Own(e, n)
    ensures About(ms, n) == ms
    ensures forall m: nat | m != n :: About(ms, m) == []
  {
    if ms != [] {
      AboutOwn(ms[..|ms| - 1], n);
      assert ms == ms[..|ms| - 1] + [ms[|ms| - 1]];
      assert Own(ms[|ms| - 1], n);
    }
  }

  /** Publishing a chunk about `n` extends the transcript of `n` and no other. */
  lemma AboutPublish(log: seq<Event>, ms: seq<Event>, n: nat)
    requires forall e | e in ms :: Own(e, n)
    ensures About(log + ms, n) == About(log, n) + ms
    ensures forall m: nat | m != n :: About(log + ms, m) == About(log, m)
  {
    AboutOwn(ms, n);
    forall m: nat
      ensures About(log + ms, m) == About(log, m) + About(ms, m)
    {
      AboutAppend(log, ms, m);
    }
  }

  /** A marker event changes no transcript. */
  lemma AboutMark(log: seq<Event>, e: Event)
    requires e.Acked? || e.Spawned? || e.Served?
    ensures forall m: nat :: About(log + [e], m) == About(log, m)
  {
    forall m: nat ensures About(log + [e], m) == About(log, m) {
      AboutAppend(log, [e], m);
      assert About([e], m) == [];
    }
  }

  /** The status bracket: busy first, one reply next to last, idle last, and exactly one engine
      `error` publication when the reply is an error, none otherwise. */
  predicate Bracket(ms: seq<Event>) {
    && |ms| >= 3
    && ms[0].Busy? && ms[|ms| - 1].Idle? && ms[|ms| - 2].Reply?
    && (forall i | 0 < i < |ms| - 2 :: ms[i].Input? || ms[i].Result? || ms[i].Failure?)
    && (ms[|ms| - 2].status.Error? <==> ms[|ms| - 3].Failure?)
    && (forall i | 0 < i < |ms| - 3 :: !ms[i].Failure?)
  }

  /** How often a transcript answers its request. */
  function Replies(ms: seq<Event>): nat {
    if ms == [] then 0 else Replies(ms[..|ms| - 1]) + (if ms[|ms| - 1].Reply? then 1 else 0)
  }

  lemma {:induction false} NoReplies(ms: seq<Event>)
    requires forall i | 0 <= i < |ms| :: !ms[i].Reply?
    ensures Replies(ms) == 0
  {
    if ms != [] {
      NoReplies(ms[..|ms| - 1]);
    }
  }

  /** A completed bracket answers exactly once. */
  lemma BracketRepliesOnce(ms: seq<Event>)
    requires Bracket(ms)
    ensures Replies(ms) == 1
  {
    var body := ms[..|ms| - 1];
    assert ms[|ms| - 1].Idle?;
    assert Replies(ms) == Replies(body);
    var front := body[..|body| - 1];
    assert forall i | 0 <= i < |front| :: front[i] == ms[i];
    NoReplies(front);
    assert body[|body| - 1].Reply?;
  }

  // ----- The scripts: what each path publishes for one execute request

  /** `begin_hold`, and the opening of `execute`. */
  function OpenScript(n: nat, r: Request, count: nat): (ms: seq<Event>)
    ensures forall e | e in ms :: Own(e, n)
  {
    if r.silent then [Busy(n)] else [Busy(n), Input(n, count)]
  }

  /** An opening transcript, whatever count it reported. */
  predicate IsOpen(ms: seq<Event>, n: nat, r: Request) {
    if r.silent then ms == [Busy(n)]
    else |ms| == 2 && ms[0] == Busy(n) && ms[1].Input? && ms[1].n == n
  }

  /** How `language.execute` ends: it returns an outcome (with or without a result), returns an
      exception of the user's program, or fails operationally. */
  datatype Outcome = Returned(hasResult: bool) | Raised(ename: string) | Broke(kind: Failing)
  datatype Failing = Interrupted | Closed | Operational

  /** The ename `report_failure` puts in its reply. */
  function FailureName(kind: Failing): string {
    if kind == Interrupted then "KeyboardInterrupt" else "KernelError"
  }

  function ErrorScript(n: nat, ename: string, count: nat): (ms: seq<Event>)
    ensures forall e | e in ms :: Own(e, n)
  {
    [Failure(n, ename), Reply(n, Error(ename), Some(count)), Idle(n)]
  }

  /** What `run_execution` publishes once the language has returned. */
  function EndScript(n: nat, r: Request, count: nat, outcome: Outcome): (ms: seq<Event>)
    ensures forall e | e in ms :: Own(e, n)
  {
    match outcome
    case Returned(hasResult) =>
      (if hasResult && !r.silent then [Result(n, count)] else []) + [Reply(n, Ok, Some(count)), Idle(n)]
    case Raised(ename) => ErrorScript(n, ename, count)
    case Broke(kind) => ErrorScript(n, FailureName(kind), count)
  }

  /** `ExecutionDone.failed`. */
  predicate Failed(outcome: Outcome) { !outcome.Returned? }

  /** The ename of the error a release status stands for; any other status releases with success. */
  function HoldError(status: string): Option<string> {
    if status == "error" then Some("HoldError")
    else if status == "interrupt" then Some("KeyboardInterrupt")
    else if status == "timeout" then Some("HoldTimeout")
    else None
  }

  /** `finish_hold`. A successful release reports a null execution count. */
  function HoldScript(n: nat, count: nat, status: string): (ms: seq<Event>)
    ensures forall e | e in ms :: Own(e, n)
  {
    match HoldError(status)
    case Some(ename) => ErrorScript(n, ename, count)
    case None => [Reply(n, Ok, None), Idle(n)]
  }

  /** `abort_execute`. */
  function AbortScript(n: nat, count: nat): (ms: seq<Event>)
    ensures forall e | e in ms :: Own(e, n)
  {
    [Busy(n), Reply(n, Aborted, Some(count)), Idle(n)]
  }

  /** `reply_missing` and `interrupt_execute`: an error answered without running anything. */
  function RefuseScript(n: nat, ename: string, count: nat): (ms: seq<Event>)
    ensures forall e | e in ms :: Own(e, n)
  {
    [Busy(n)] + ErrorScript(n, ename, count)
  }

  /** Aborts published one after the other. */
  function AbortLog(ns: seq<nat>, count: nat): (log: seq<Event>) {
    if ns == [] then [] else AbortLog(ns[..|ns| - 1], count) + AbortScript(ns[|ns| - 1], count)
  }

  lemma {:induction false} AbortLogAbout(ns: seq<nat>, count: nat)
    requires forall i, j | 0 <= i < j < |ns| :: ns[i] != ns[j]
    ensures forall n: nat :: About(AbortLog(ns, count), n) == if n in ns then AbortScript(n, count) else []
  {
    if ns != [] {
      var front, last := ns[..|ns| - 1], ns[|ns| - 1];
      AbortLogAbout(front, count);
      AboutPublish(AbortLog(front, count), AbortScript(last, count), last);
      assert ns == front + [last];
    }
  }

  lemma {:induction false} AbortLogAppend(a: seq<nat>, b: seq<nat>, count: nat)
    ensures AbortLog(a + b, count) == AbortLog(a, count) + AbortLog(b, count)
  {
    if b == [] {
      assert a + b == a;
    } else {
      var c := a + b;
      assert c[..|c| - 1] == a + b[..|b| - 1];
      AbortLogAppend(a, b[..|b| - 1], count);
    }
  }

  /** Every answering path makes one status bracket. */
  lemma AnsweringPathsAreBrackets(n: nat, r: Request, count: nat, outcome: Outcome, status: string, ename: string, ms: seq<Event>)
    ensures Bracket(OpenScript(n, r, count) + EndScript(n, r, count, outcome))
    ensures IsOpen(ms, n, r) ==> Bracket(ms + HoldScript(n, count, status))
    ensures Bracket(AbortScript(n, count))
    ensures Bracket(RefuseScript(n, ename, count))
  {
  }

  /** A transcript holds an error reply. */
  predicate HasError(ms: seq<Event>) { exists i :: 0 <= i < |ms| && ms[i].Reply? && ms[i].status.Error? }

  /** A finished execution has got an error reply exactly when the language did not return normally. */
  lemma ErrorByOutcome(n: nat, r: Request, count: nat, outcome: Outcome)
    ensures HasError(OpenScript(n, r, count) + EndScript(n, r, count, outcome)) <==> !outcome.Returned?
  {
    var o, e := OpenScript(n, r, count), EndScript(n, r, count, outcome);
    var ms := o + e;
    assert ms[|ms| - 2] == e[|e| - 2];
    assert forall i | 0 <= i < |ms| :: ms[i] == if i < |o| then o[i] else e[i - |o|];
  }

  /** The status and the count of every reply, by what it answers. */
  lemma RepliesByCause(n: nat, r: Request, count: nat, outcome: Outcome, status: string, e: Event)
    requires e.Reply?
    ensures e in EndScript(n, r, count, outcome) <==>
              e == Reply(n, match outcome
                            case Returned(_) => Ok
                            case Raised(ename) => Error(ename)
                            case Broke(Interrupted) => Error("KeyboardInterrupt")
                            case Broke(_) => Error("KernelError"), Some(count))
    ensures e in HoldScript(n, count, status) <==>
              e == if status == "error" then Reply(n, Error("HoldError"), Some(count))
                   else if status == "interrupt" then Reply(n, Error("KeyboardInterrupt"), Some(count))
                   else if status == "timeout" then Reply(n, Error("HoldTimeout"), Some(count))
                   else Reply(n, Ok, None)
    ensures e in AbortScript(n, count) <==> e == Reply(n, Aborted, Some(count))
    ensures forall ename :: e in RefuseScript(n, ename, count) <==> e == Reply(n, Error(ename), Some(count))
  {
  }

  /** The input, the result and the error of an execution are published by these rules: the input unless
      it is silent, the result if there is one and it is not silent, the error if there is one. */
  lemma EventsByCause(n: nat, r: Request, count: nat, outcome: Outcome, c: nat, ename: string)
    ensures Input(n, c) in OpenScript(n, r, count) <==> !r.silent && c == count
    ensures Result(n, c) in EndScript(n, r, count, outcome) <==> outcome == Returned(true) && !r.silent && c == count
    ensures Failure(n, ename) in EndScript(n, r, count, outcome) <==>
              || outcome == Raised(ename)
              || (outcome == Broke(Interrupted) && ename == "KeyboardInterrupt")
              || ((outcome == Broke(Closed) || outcome == Broke(Operational)) && ename == "KernelError")
  {
  }
}
