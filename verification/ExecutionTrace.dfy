/** One execution and its output pump, interleaved: `execute` and `run_execution` publish the engine's
    own messages, the language emits output at any time, and the pump publishes it in batches. */
module ExecutionTrace {
  import opened Messages
  import opened OutputPump

  /** Published: an output event handed on by the pump, or one of the engine's own messages. A flush
      in the log is its acknowledgement. */
  datatype Entry = Out(item: Item) | Own(message: Event)

  /** Where the execution task is: publishing its opening, waiting for the language, waiting for its
      flush, or publishing its closing messages. */
  datatype Phase = Opening(pre: seq<Event>) | Running | Flushing(outcome: Outcome) | Closing(post: seq<Event>, outcome: Outcome)

  /** `emitted` is everything put in the event queue so far, `channel` what the pump has not taken,
      `working` the rest of the batch it works on. */
  datatype Trace = Trace(n: nat, request: Request, count: nat, phase: Phase, emitted: seq<Item>, channel: seq<Item>,
                         working: seq<Item>, log: seq<Entry>)

  const MARK: Item := Flush(0)

  function Begin(n: nat, request: Request, count: nat): Trace {
    Trace(n, request, count, Opening(OpenScript(n, request, count)), [], [], [], [])
  }

  datatype Step = Emit(item: Item) | Return(outcome: Outcome) | Fetch(size: nat) | Pump | Publish

  /** The flush is the engine's own; output can come from the language or from threads it left
      behind, from the time the language starts. */
  predicate Enabled(t: Trace, a: Step) {
    match a
    case Emit(item) => !item.Flush? && !t.phase.Opening?
    case Return(_) => t.phase.Running?
    case Fetch(size) => t.working == [] && 0 < size <= |t.channel|
    case Pump => t.working != []
    case Publish =>
      match t.phase
      case Opening(_) => true
      case Running => false
      case Flushing(_) => Out(MARK) in t.log
      case Closing(post, _) => post != []
  }

  function Next(t: Trace, a: Step): Trace
    requires Enabled(t, a)
  {
    match a
    case Emit(item) => t.(emitted := t.emitted + [item], channel := t.channel + [item])
    case Return(outcome) => t.(phase := Flushing(outcome), emitted := t.emitted + [MARK], channel := t.channel + [MARK])
    case Fetch(size) => t.(working := Merge(t.channel[..size]), channel := t.channel[size..])
    case Pump => t.(working := t.working[1..], log := t.log + [Out(t.working[0])])
    case Publish =>
      match t.phase
      case Opening(pre) =>
        if pre == [] then t.(phase := Running) else t.(phase := Opening(pre[1..]), log := t.log + [Own(pre[0])])
      case Flushing(outcome) => t.(phase := Closing(EndScript(t.n, t.request, t.count, outcome), outcome))
      case Closing(post, outcome) => t.(phase := Closing(post[1..], outcome), log := t.log + [Own(post[0])])
  }

  // ----- The two projections of the log

  function Outs(log: seq<Entry>): seq<Item> {
    if log == [] then [] else Outs(log[..|log| - 1]) + if log[|log| - 1].Out? then [log[|log| - 1].item] else []
  }

  function Owns(log: seq<Entry>): seq<Event> {
    if log == [] then [] else Owns(log[..|log| - 1]) + if log[|log| - 1].Own? then [log[|log| - 1].message] else []
  }

  lemma Projected(log: seq<Entry>, e: Entry)
    ensures Outs(log + [e]) == if e.Out? then Outs(log) + [e.item] else Outs(log)
    ensures Owns(log + [e]) == if e.Own? then Owns(log) + [e.message] else Owns(log)
  {
    assert (log + [e])[..|log|] == log;
  }

  // ----- What every step keeps

  /** Nothing emitted is lost, reordered or published early. */
  ghost predicate Flows(t: Trace) {
    Expand(t.emitted) == Expand(Outs(t.log)) + Expand(t.working) + Expand(t.channel)
  }

  /** The engine's own messages, with those still to come, are the execution's script. */
  ghost predicate Scripted(t: Trace) {
    var open := OpenScript(t.n, t.request, t.count);
    match t.phase
    case Opening(pre) => Owns(t.log) + pre == open
    case Running => Owns(t.log) == open
    case Flushing(_) => Owns(t.log) == open
    case Closing(post, outcome) => Owns(t.log) + post == open + EndScript(t.n, t.request, t.count, outcome)
  }

  /** How many items were emitted before the language returned. */
  function Returned(t: Trace): nat { if MARK in t.emitted then IndexOf(t.emitted, MARK) else |t.emitted| }

  function IndexOf<T(==)>(s: seq<T>, x: T): (i: nat)
    requires x in s
    ensures i < |s| && s[i] == x && x !in s[..i]
  {
    if s[0] == x then 0 else 1 + IndexOf(s[1..], x)
  }

  /** The flush is emitted once, when the language returns, and closing messages come only after
      everything emitted before it has been published. */
  ghost predicate Barred(t: Trace) {
    && (MARK in t.emitted <==> t.phase.Flushing? || t.phase.Closing?)
    && (t.phase.Closing? ==> Out(MARK) in t.log)
    && (Out(MARK) in t.log ==> MARK in t.emitted)
    && (Out(MARK) in t.log ==>
          var f := IndexOf(t.log, Out(MARK));
          && Expand(Outs(t.log[..f])) == Expand(t.emitted[..Returned(t)])
          && Owns(t.log[..f]) == OpenScript(t.n, t.request, t.count))
  }

  ghost predicate Good(t: Trace) { Flows(t) && Scripted(t) && Barred(t) }

  lemma BeginGood(n: nat, request: Request, count: nat)
    ensures Good(Begin(n, request, count))
  {
  }

  lemma {:induction false} ExpandOne(x: Item)
    ensures Expand([x]) == Tokens(x)
  {
    assert Expand([x]) == Tokens(x) + Expand([]);
  }

  lemma Regroup(a: seq<Token>, b: seq<Token>, c: seq<Token>, d: seq<Token>)
    ensures (a + b + c) + d == a + b + (c + d)
    ensures a + (b + c) + d == (a + b) + c + d
    ensures a + (b + c) + d == a + b + (c + d)
    ensures a + [] + (c + d) == a + c + d
  {
  }

  lemma EmitFlows(t: Trace, x: Item)
    requires Flows(t)
    ensures Flows(t.(emitted := t.emitted + [x], channel := t.channel + [x]))
  {
    ExpandAppend(t.emitted, [x]);
    ExpandAppend(t.channel, [x]);
    Regroup(Expand(Outs(t.log)), Expand(t.working), Expand(t.channel), Expand([x]));
  }

  lemma FetchFlows(t: Trace, size: nat)
    requires Flows(t) && Enabled(t, Fetch(size))
    ensures Flows(Next(t, Fetch(size)))
  {
    var batch, rest := t.channel[..size], t.channel[size..];
    assert t.channel == batch + rest;
    MergeKeepsTokens(batch);
    ExpandAppend(batch, rest);
    Regroup(Expand(Outs(t.log)), [], Expand(batch), Expand(rest));
  }

  lemma PumpFlows(t: Trace)
    requires Flows(t) && Enabled(t, Pump)
    ensures Flows(Next(t, Pump))
  {
    var x, rest := t.working[0], t.working[1..];
    Projected(t.log, Out(x));
    ExpandAppend(Outs(t.log), [x]);
    ExpandOne(x);
    Regroup(Expand(Outs(t.log)), Tokens(x), Expand(rest), Expand(t.channel));
  }

  lemma PublishFlows(t: Trace)
    requires Flows(t) && Enabled(t, Publish)
    ensures Flows(Next(t, Publish))
  {
    var u := Next(t, Publish);
    assert Outs(u.log) == Outs(t.log) by {
      match t.phase {
        case Opening(pre) => if pre != [] { Projected(t.log, Own(pre[0])); }
        case Closing(post, _) => Projected(t.log, Own(post[0]));
        case _ =>
      }
    }
  }

  lemma ShiftOne(done: seq<Event>, rest: seq<Event>)
    requires rest != []
    ensures (done + [rest[0]]) + rest[1..] == done + rest
    ensures done + [] == done
  {
  }

  lemma PublishScripted(t: Trace)
    requires Scripted(t) && Enabled(t, Publish)
    ensures Scripted(Next(t, Publish))
  {
    match t.phase {
      case Opening(pre) =>
        if pre != [] {
          Projected(t.log, Own(pre[0]));
          ShiftOne(Owns(t.log), pre);
        }
      case Closing(post, _) =>
        Projected(t.log, Own(post[0]));
        ShiftOne(Owns(t.log), post);
      case _ =>
    }
  }

  lemma StepFlows(t: Trace, a: Step)
    requires Good(t) && Enabled(t, a)
    ensures Flows(Next(t, a))
  {
    match a {
      case Emit(x) => EmitFlows(t, x);
      case Return(_) => EmitFlows(t, MARK);
      case Fetch(size) => FetchFlows(t, size);
      case Pump => PumpFlows(t);
      case Publish => PublishFlows(t);
    }
  }

  lemma StepScripted(t: Trace, a: Step)
    requires Good(t) && Enabled(t, a)
    ensures Scripted(Next(t, a))
  {
    match a {
      case Pump => Projected(t.log, Out(t.working[0]));
      case Publish => PublishScripted(t);
      case _ =>
    }
  }

  // ----- The barrier

  /** Tokens of items other than the flush are other tokens. */
  lemma {:induction false} NoMark(xs: seq<Item>)
    requires MARK !in xs
    ensures Mark(MARK) !in Expand(xs)
  {
    if xs != [] {
      assert xs[0] in xs;
      NoMark(xs[1..]);
    }
  }

  lemma SplitAtMark(a: seq<Token>, b: seq<Token>, c: seq<Token>, d: seq<Token>)
    requires a + [Mark(MARK)] + b == c + [Mark(MARK)] + d && Mark(MARK) !in a && Mark(MARK) !in c
    ensures a == c
  {
    var l, r := a + [Mark(MARK)] + b, c + [Mark(MARK)] + d;
    assert l[|a|] == Mark(MARK) && r[|c|] == Mark(MARK);
    assert a == l[..|a|] && c == r[..|c|];
  }

  lemma {:induction false} OutsMark(log: seq<Entry>)
    requires Out(MARK) !in log
    ensures MARK !in Outs(log)
  {
    if log != [] {
      assert log[|log| - 1] in log;
      OutsMark(log[..|log| - 1]);
    }
  }

  /** Acknowledging the flush: exactly what was emitted before it has been published. */
  lemma AckBars(t: Trace)
    requires Good(t) && t.working != [] && t.working[0] == MARK && Out(MARK) !in t.log && MARK in t.emitted
    ensures Expand(Outs(t.log)) == Expand(t.emitted[..Returned(t)])
  {
    var r := Returned(t);
    var pre, post := t.emitted[..r], t.emitted[r + 1..];
    AroundMark(t.emitted, r);
    var a, b, c := Expand(Outs(t.log)), Expand(t.working[1..]), Expand(t.channel);
    assert Expand(t.working) == [Mark(MARK)] + b;
    Regroup(a, [Mark(MARK)], b, c);
    NoMark(pre);
    OutsMark(t.log);
    NoMark(Outs(t.log));
    SplitAtMark(a, b + c, Expand(pre), Expand(post));
  }

  lemma AroundMark(xs: seq<Item>, r: nat)
    requires r < |xs| && xs[r] == MARK
    ensures Expand(xs) == Expand(xs[..r]) + [Mark(MARK)] + Expand(xs[r + 1..])
  {
    var pre, post := xs[..r], xs[r + 1..];
    assert xs == pre + ([MARK] + post);
    ExpandAppend(pre, [MARK] + post);
    ExpandHead(MARK, post);
    assert Expand(pre) + ([Mark(MARK)] + Expand(post)) == Expand(pre) + [Mark(MARK)] + Expand(post);
  }

  lemma IndexLater<T>(s: seq<T>, x: T, y: T)
    requires x in s
    ensures IndexOf(s + [y], x) == IndexOf(s, x)
  {
    var i, j := IndexOf(s, x), IndexOf(s + [y], x);
    assert (s + [y])[i] == x;
    assert (s + [y])[..i] == s[..i];
  }

  /** Appending to the log or to the queue leaves the barrier where it is. */
  lemma BarStays(t: Trace, u: Trace)
    requires Barred(t) && u.n == t.n && u.request == t.request && u.count == t.count
    requires u.log == t.log || (|u.log| == |t.log| + 1 && u.log == t.log + [u.log[|t.log|]])
    requires u.emitted == t.emitted || (|u.emitted| == |t.emitted| + 1 && u.emitted == t.emitted + [u.emitted[|t.emitted|]])
    requires Out(MARK) in t.log
    ensures Out(MARK) in u.log && MARK in u.emitted
    ensures
      var f := IndexOf(u.log, Out(MARK));
      && Expand(Outs(u.log[..f])) == Expand(u.emitted[..Returned(u)])
      && Owns(u.log[..f]) == OpenScript(u.n, u.request, u.count)
  {
    if u.log != t.log { IndexLater(t.log, Out(MARK), u.log[|t.log|]); }
    if u.emitted != t.emitted { IndexLater(t.emitted, MARK, u.emitted[|t.emitted|]); }
    var f := IndexOf(t.log, Out(MARK));
    assert u.log[..f] == t.log[..f] && u.emitted[..Returned(t)] == t.emitted[..Returned(t)];
  }

  lemma PumpBarred(t: Trace)
    requires Good(t) && Enabled(t, Pump)
    ensures Barred(Next(t, Pump))
  {
    var u := Next(t, Pump);
    if Out(MARK) in t.log {
      BarStays(t, u);
    } else if t.working[0] == MARK {
      MarkWasEmitted(t);
      AckBars(t);
      assert u.log[|t.log|] == Out(MARK) && u.log[..|t.log|] == t.log;
      assert IndexOf(u.log, Out(MARK)) == |t.log|;
    }
  }

  /** The flush is published only after it was emitted. */
  lemma MarkWasEmitted(t: Trace)
    requires Flows(t) && t.working != [] && t.working[0] == MARK
    ensures MARK in t.emitted
  {
    if MARK !in t.emitted { NoMark(t.emitted); }
    assert Expand(t.working) == [Mark(MARK)] + Expand(t.working[1..]);
    var a, c := Expand(Outs(t.log)), Expand(t.channel);
    assert Expand(t.emitted)[|a|] == Mark(MARK);
  }

  lemma StepBarred(t: Trace, a: Step)
    requires Good(t) && Enabled(t, a)
    ensures Barred(Next(t, a))
  {
    var u := Next(t, a);
    match a {
      case Emit(x) => if Out(MARK) in t.log { BarStays(t, u); }
      case Return(_) =>
      case Fetch(_) =>
      case Pump => PumpBarred(t);
      case Publish => if Out(MARK) in t.log { BarStays(t, u); }
    }
  }

  // ----- Runs

  ghost predicate Runs(t: Trace, steps: seq<Step>)
    decreases |steps|
  {
    steps != [] ==> Enabled(t, steps[0]) && Runs(Next(t, steps[0]), steps[1..])
  }

  ghost function Final(t: Trace, steps: seq<Step>): Trace
    requires Runs(t, steps)
    decreases |steps|
  {
    if steps == [] then t else Final(Next(t, steps[0]), steps[1..])
  }

  lemma {:induction false} RunGood(t: Trace, steps: seq<Step>)
    requires Good(t) && Runs(t, steps)
    ensures Good(Final(t, steps))
    decreases |steps|
  {
    if steps != [] {
      StepFlows(t, steps[0]);
      StepScripted(t, steps[0]);
      StepBarred(t, steps[0]);
      RunGood(Next(t, steps[0]), steps[1..]);
    }
  }

  lemma {:induction false} OwnsLonger(log: seq<Entry>, i: nat, j: nat)
    requires i <= j <= |log|
    ensures |Owns(log[..i])| <= |Owns(log[..j])|
    decreases j
  {
    if i < j {
      assert log[..j][..j - 1] == log[..j - 1];
      OwnsLonger(log, i, j - 1);
    }
  }

  /** Output before the reply, over every interleaving of the language, its threads, the pump and
      the execution task: when a closing message (result, error, reply or idle) is published,
      everything emitted before the language returned has already been published, and nothing of it
      is missing or out of place. A closing message is an own message after the opening ones. */
  lemma OutputBeforeReply(n: nat, request: Request, count: nat, steps: seq<Step>, i: nat)
    requires Runs(Begin(n, request, count), steps) && i < |Final(Begin(n, request, count), steps).log|
    requires
      var t := Final(Begin(n, request, count), steps);
      t.log[i].Own? && |Owns(t.log[..i])| >= |OpenScript(n, request, count)|
    ensures
      var t := Final(Begin(n, request, count), steps);
      && MARK in t.emitted && Out(MARK) in t.log[..i]
      && Expand(Outs(t.log[..IndexOf(t.log, Out(MARK))])) == Expand(t.emitted[..Returned(t)])
  {
    var t := Final(Begin(n, request, count), steps);
    BeginGood(n, request, count);
    RunGood(Begin(n, request, count), steps);
    RunParameters(Begin(n, request, count), steps);
    OwnsBound(t, i);
  }

  lemma {:induction false} RunParameters(t: Trace, steps: seq<Step>)
    requires Runs(t, steps)
    ensures var u := Final(t, steps); u.n == t.n && u.request == t.request && u.count == t.count
    decreases |steps|
  {
    if steps != [] { RunParameters(Next(t, steps[0]), steps[1..]); }
  }

  lemma EarlierOwn(log: seq<Entry>, i: nat, f: nat)
    requires i < f <= |log| && log[i].Own?
    ensures |Owns(log[..i])| < |Owns(log[..f])|
  {
    assert log[..i + 1][..i] == log[..i];
    OwnsLonger(log, i + 1, f);
  }

  /** More than the opening has been published only while closing. */
  lemma PastOpening(t: Trace)
    requires Scripted(t) && |Owns(t.log)| > |OpenScript(t.n, t.request, t.count)|
    ensures t.phase.Closing?
  {
    assert forall pre: seq<Event> :: |Owns(t.log) + pre| >= |Owns(t.log)|;
  }

  lemma AfterFlush(log: seq<Entry>, i: nat)
    requires i < |log| && log[i].Own? && Out(MARK) in log
    requires |Owns(log[..i])| >= |Owns(log[..IndexOf(log, Out(MARK))])|
    ensures Out(MARK) in log[..i]
  {
    var f := IndexOf(log, Out(MARK));
    if i < f { EarlierOwn(log, i, f); }
    assert log[..i][f] == Out(MARK);
  }

  lemma OwnsBound(t: Trace, i: nat)
    requires Good(t) && i < |t.log| && t.log[i].Own?
    requires |Owns(t.log[..i])| >= |OpenScript(t.n, t.request, t.count)|
    ensures Out(MARK) in t.log && Out(MARK) in t.log[..i]
  {
    EarlierOwn(t.log, i, |t.log|);
    assert t.log[..|t.log|] == t.log;
    PastOpening(t);
    AfterFlush(t.log, i);
  }

  /** The engine's own messages of a finished execution are one status bracket. */
  lemma FinishedTraceIsABracket(n: nat, request: Request, count: nat, steps: seq<Step>)
    requires Runs(Begin(n, request, count), steps)
    requires var p := Final(Begin(n, request, count), steps).phase; p.Closing? && p.post == []
    ensures Bracket(Owns(Final(Begin(n, request, count), steps).log))
  {
    var t := Final(Begin(n, request, count), steps);
    BeginGood(n, request, count);
    RunGood(Begin(n, request, count), steps);
    RunParameters(Begin(n, request, count), steps);
    AnsweringPathsAreBrackets(n, request, count, t.phase.outcome, "", "", []);
    assert Owns(t.log) + [] == Owns(t.log);
  }
}
