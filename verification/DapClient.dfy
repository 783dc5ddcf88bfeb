/** The debug adapter client: any number of senders, closers, droppers and one reader, each one a
    thread that takes the pending lock, the close cell and the counter one at a time. */
module DapClient {
  import opened Options

  const MAX: nat := 0xFFFF_FFFF_FFFF_FFFF

  type Reason = string

  /** What a waiter is completed with: the response to a sequence number, or the close reason. */
  datatype Outcome = Response(seqno: nat) | Failure(reason: Reason)

  /** A request carries its own positive sequence number or gets one. */
  datatype Wanted = Explicit(seqno: nat) | Auto

  /** A call of `send`, and the `DapRequest` it returns. The number of the call also names its
      waiter. `midSend` tells a request dropped inside `send` from one dropped by its owner. */
  datatype Call =
    | New(wanted: Wanted)                    // line 62 comes next
    | Checked(wanted: Wanted)                // not closed at line 62
    | Allocating(seqno: nat)                 // between taking a number and raising the counter
    | Ready(seqno: nat)
    | Inserted(seqno: nat)                   // line 72 comes next
    | Sending(seqno: nat)
    | Open(seqno: nat)                       // `send` has returned the request
    | Dropping(seqno: nat, midSend: bool)    // its receiver is not closed yet
    | Unlisting(seqno: nat, midSend: bool)   // its entry is not looked up yet
    | Done(seqno: nat)
    | Rejected                               // `send` failed before it inserted anything

  /** `fail_pending`: set the reason, read it back, drain. */
  datatype Closer = Setting(reason: Reason) | Reading | Draining(reason: Reason) | Closed

  /** `hand` holds waiters the reader has taken out and not completed, with the response's number.
      `closed` are the waiters whose receiver is closed, `results` what waiters were completed with, and
      `returned` the numbers that `request_sequence` has returned. */
  datatype State = State(pending: map<nat, nat>, close: Option<Reason>, next: nat, calls: seq<Call>, closers: seq<Closer>,
                         hand: map<nat, nat>, closed: set<nat>, results: map<nat, Outcome>, returned: set<nat>)

  const Initial := State(map[], None, 1, [], [], map[], {}, map[], {})

  datatype Step =
    | Call(wanted: Wanted)
    | Check(w: nat)
    | Allocate(w: nat)
    | Raise(w: nat)
    | Insert(w: nat)
    | Recheck(w: nat)
    | Sent(w: nat, ok: bool)
    | Discard(w: nat)
    | CloseReceiver(w: nat)
    | Unlist(w: nat)
    | Fail(reason: Reason)
    | SetReason(c: nat)
    | ReadReason(c: nat)
    | Drain(c: nat)
    | Take(seqno: nat)
    | Complete(w: nat)

  predicate Enabled(s: State, a: Step) {
    match a
    case Call(_) => true
    case Check(w) => w < |s.calls| && s.calls[w].New?
    case Allocate(w) => w < |s.calls| && s.calls[w].Checked?
    case Raise(w) => w < |s.calls| && s.calls[w].Allocating?
    case Insert(w) => w < |s.calls| && s.calls[w].Ready?
    case Recheck(w) => w < |s.calls| && s.calls[w].Inserted?
    case Sent(w, _) => w < |s.calls| && s.calls[w].Sending?
    case Discard(w) => w < |s.calls| && s.calls[w].Open?
    case CloseReceiver(w) => w < |s.calls| && s.calls[w].Dropping?
    case Unlist(w) => w < |s.calls| && s.calls[w].Unlisting?
    case Fail(_) => true
    case SetReason(c) => c < |s.closers| && s.closers[c].Setting?
    case ReadReason(c) => c < |s.closers| && s.closers[c].Reading? && s.close.Some?
    case Drain(c) => c < |s.closers| && s.closers[c].Draining?
    case Take(q) => q in s.pending
    case Complete(w) => w in s.hand
  }

  /** All waiters of `pending`, each completed with `reason`. */
  function Drained(pending: map<nat, nat>, reason: Reason): map<nat, Outcome> {
    map w | w in pending.Values :: Failure(reason)
  }

  function Max(a: nat, b: nat): nat { if a < b then b else a }

  /** The number a request asks for: zero is no number. */
  function Wish(wanted: Wanted): Option<nat> {
    if wanted.Explicit? && wanted.seqno > 0 then Some(wanted.seqno) else None
  }

  /** The counter after `fetch_add(1)`, on 64 bits. */
  function Bumped(next: nat): nat { if next >= MAX then 0 else next + 1 }

  /** The pending map after a drop: the entry goes if its receiver is closed. */
  function Unlisted(pending: map<nat, nat>, q: nat, closed: set<nat>): map<nat, nat> {
    if q in pending && pending[q] in closed then pending - {q} else pending
  }

  /** The first reason stays. */
  function FirstReason(close: Option<Reason>, reason: Reason): Option<Reason> { if close.Some? then close else Some(reason) }

  function Next(s: State, a: Step): State
    requires Enabled(s, a)
  {
    match a
    case Call(wanted) => s.(calls := s.calls + [New(wanted)])
    case Check(w) => s.(calls := s.calls[w := if s.close.Some? then Rejected else Checked(s.calls[w].wanted)])
    case Allocate(w) =>
      var wish := Wish(s.calls[w].wanted);
      if wish.Some? then s.(calls := s.calls[w := Allocating(wish.value)])
      else s.(calls := s.calls[w := Allocating(s.next)], next := Bumped(s.next))
    case Raise(w) =>
      var q := s.calls[w].seqno;
      if q >= MAX then s.(calls := s.calls[w := Rejected])
      else s.(calls := s.calls[w := Ready(q)], next := Max(s.next, q + 1), returned := s.returned + {q})
    case Insert(w) =>
      var q := s.calls[w].seqno;
      if q in s.pending then s.(calls := s.calls[w := Rejected])
      else s.(calls := s.calls[w := Inserted(q)], pending := s.pending[q := w])
    case Recheck(w) =>
      var q := s.calls[w].seqno;
      s.(calls := s.calls[w := if s.close.Some? then Dropping(q, true) else Sending(q)])
    case Sent(w, ok) =>
      var q := s.calls[w].seqno;
      s.(calls := s.calls[w := if ok then Open(q) else Dropping(q, true)])
    case Discard(w) => s.(calls := s.calls[w := Dropping(s.calls[w].seqno, false)])
    case CloseReceiver(w) =>
      s.(calls := s.calls[w := Unlisting(s.calls[w].seqno, s.calls[w].midSend)], closed := s.closed + {w})
    case Unlist(w) =>
      var q := s.calls[w].seqno;
      s.(calls := s.calls[w := Done(q)], pending := Unlisted(s.pending, q, s.closed))
    case Fail(reason) => s.(closers := s.closers + [Setting(reason)])
    case SetReason(c) =>
      s.(closers := s.closers[c := Reading], close := FirstReason(s.close, s.closers[c].reason))
    case ReadReason(c) => s.(closers := s.closers[c := Draining(s.close.value)])
    case Drain(c) =>
      s.(closers := s.closers[c := Closed], pending := map[], results := s.results + Drained(s.pending, s.closers[c].reason))
    case Take(q) => s.(pending := s.pending - {q}, hand := s.hand[s.pending[q] := q])
    case Complete(w) => s.(hand := s.hand - {w}, results := s.results[w := Response(s.hand[w])])
  }

  // ----- What every step keeps

  /** A call whose waiter may be in `pending`, with this number. */
  predicate Listed(c: Call, q: nat) {
    (c.Inserted? || c.Sending? || c.Open? || c.Dropping? || c.Unlisting?) && c.seqno == q
  }

  /** A call whose waiter has been inserted at some time, with this number. */
  predicate Began(c: Call, q: nat) { Listed(c, q) || (c.Done? && c.seqno == q) }

  predicate HasWaiter(c: Call) { c.Inserted? || c.Sending? || c.Open? || c.Dropping? || c.Unlisting? || c.Done? }

  /** Each waiter has one sender: in `pending` under its own number, in the reader's hand, or used
      to complete it, with the response to its own number or with the close reason. */
  ghost predicate Owned(s: State) {
    && (forall q | q in s.pending :: s.pending[q] < |s.calls| && Listed(s.calls[s.pending[q]], q)
                                     && s.pending[q] !in s.hand && s.pending[q] !in s.results)
    && (forall w | w in s.hand :: w < |s.calls| && Began(s.calls[w], s.hand[w]) && w !in s.results)
    && (forall w | w in s.results :: w < |s.calls| && Right(s, w))
  }

  ghost predicate Right(s: State, w: nat)
    requires w in s.results && w < |s.calls|
  {
    match s.results[w]
    case Response(q) => Began(s.calls[w], q)
    case Failure(reason) => s.close == Some(reason) && HasWaiter(s.calls[w])
  }

  /** A call that has inserted its waiter and not closed its receiver. */
  predicate Live(c: Call) { c.Inserted? || c.Sending? || c.Open? || c.Dropping? }

  /** Where a live waiter is. */
  predicate Placed(s: State, w: nat)
    requires w < |s.calls| && Live(s.calls[w])
  {
    (s.calls[w].seqno in s.pending && s.pending[s.calls[w].seqno] == w) || w in s.hand || w in s.results
  }

  /** No live waiter is lost: it is pending under its number, in the reader's hand, or completed. */
  ghost predicate Kept(s: State) { forall w | 0 <= w < |s.calls| && Live(s.calls[w]) :: Placed(s, w) }

  /** The closed receivers are those of calls past closing them. */
  ghost predicate Receivers(s: State) {
    forall w: nat :: w in s.closed <==> w < |s.calls| && (s.calls[w].Unlisting? || s.calls[w].Done?)
  }

  /** This `fail_pending` has set the reason and not drained yet. */
  predicate DrainComes(c: Closer) { c.Reading? || c.Draining? }

  ghost predicate NoDrain(s: State) { forall c | 0 <= c < |s.closers| :: !DrainComes(s.closers[c]) }

  /** `send` is between inserting this call's waiter and returning. */
  predicate Midway(c: Call) { c.Inserted? || ((c.Dropping? || c.Unlisting?) && c.midSend) }

  /** Once the close reason is set, whatever is pending is about to be drained or taken back. */
  ghost predicate Doomed(s: State) {
    && (s.close.Some? && NoDrain(s) ==>
          forall q | q in s.pending :: s.pending[q] < |s.calls| && Midway(s.calls[s.pending[q]]))
    && (forall c | 0 <= c < |s.closers| && !s.closers[c].Setting? :: s.close.Some?)
    && (forall c | 0 <= c < |s.closers| && s.closers[c].Draining? :: s.close == Some(s.closers[c].reason))
  }

  ghost predicate Good(s: State) { Owned(s) && Kept(s) && Receivers(s) && Doomed(s) }

  /** A step that only moves call `w` on, and keeps the number of an inserted waiter. */
  ghost predicate Moves(s: State, t: State, w: nat) {
    && w < |s.calls| == |t.calls|
    && (forall v | 0 <= v < |s.calls| && v != w :: t.calls[v] == s.calls[v])
    && t.pending == s.pending && t.hand == s.hand && t.results == s.results && t.close == s.close && t.closers == s.closers
    && (forall q :: Listed(s.calls[w], q) <==> Listed(t.calls[w], q))
    && !s.calls[w].Done? && !t.calls[w].Done?
  }

  lemma MoveKeeps(s: State, t: State, w: nat)
    requires Owned(s) && Moves(s, t, w)
    ensures Owned(t)
  {
    forall v | v in t.results ensures Right(t, v) {
      assert Right(s, v);
      assert HasWaiter(s.calls[v]) ==> HasWaiter(t.calls[v]) by {
        if v == w && HasWaiter(s.calls[v]) { assert Listed(s.calls[w], s.calls[w].seqno); }
      }
    }
  }

  lemma UnlistOwned(s: State, w: nat)
    requires Good(s) && Enabled(s, Unlist(w))
    ensures Owned(Next(s, Unlist(w)))
  {
    var t := Next(s, Unlist(w));
    assert w in s.closed;
    forall q | q in t.pending ensures t.pending[q] < |t.calls| && Listed(t.calls[t.pending[q]], q) {
      assert q in s.pending && t.pending[q] == s.pending[q];
      assert Listed(s.calls[s.pending[q]], q);
    }
    forall v | v in t.results ensures Right(t, v) { assert Right(s, v); }
  }

  lemma InsertOwned(s: State, w: nat)
    requires Owned(s) && Kept(s) && Enabled(s, Insert(w))
    ensures Owned(Next(s, Insert(w)))
  {
    var t := Next(s, Insert(w));
    assert w in s.results ==> Right(s, w);
    assert w !in s.hand;
    forall v | v in t.results ensures Right(t, v) { assert Right(s, v); }
  }

  lemma CloserOwned(s: State, a: Step)
    requires Good(s) && Enabled(s, a) && (a.Fail? || a.SetReason? || a.ReadReason? || a.Drain?)
    ensures Owned(Next(s, a))
  {
    var t := Next(s, a);
    forall v | v in t.results ensures v < |t.calls| && Right(t, v) {
      if v in s.results {
        assert Right(s, v);
      }
    }
  }

  lemma ReaderOwned(s: State, a: Step)
    requires Good(s) && Enabled(s, a) && (a.Take? || a.Complete?)
    ensures Owned(Next(s, a))
  {
    var t := Next(s, a);
    if a.Take? {
      forall q | q in t.pending ensures t.pending[q] != s.pending[a.seqno] {
        assert Listed(s.calls[s.pending[q]], q) && Listed(s.calls[s.pending[a.seqno]], a.seqno);
      }
    }
    forall v | v in t.results ensures v < |t.calls| && Right(t, v) {
      if v in s.results { assert Right(s, v); }
    }
  }

  lemma StepOwned(s: State, a: Step)
    requires Good(s) && Enabled(s, a)
    ensures Owned(Next(s, a))
  {
    var t := Next(s, a);
    match a {
      case Call(_) => CallOwned(s, a);
      case Check(_) => EntryOwned(s, a);
      case Allocate(_) => EntryOwned(s, a);
      case Raise(_) => EntryOwned(s, a);
      case Insert(w) => InsertOwned(s, w);
      case Unlist(w) => UnlistOwned(s, w);
      case Fail(_) => CloserOwned(s, a);
      case SetReason(_) => CloserOwned(s, a);
      case ReadReason(_) => CloserOwned(s, a);
      case Drain(_) => CloserOwned(s, a);
      case Take(_) => ReaderOwned(s, a);
      case Complete(_) => ReaderOwned(s, a);
      case _ => SenderOwned(s, a);
    }
  }

  lemma CallOwned(s: State, a: Step)
    requires Owned(s) && a.Call?
    ensures Owned(Next(s, a))
  {
    var t := Next(s, a);
    forall v | v in t.results ensures Right(t, v) { assert Right(s, v); }
  }

  lemma EntryOwned(s: State, a: Step)
    requires Owned(s) && Enabled(s, a) && (a.Check? || a.Allocate? || a.Raise?)
    ensures Owned(Next(s, a))
  {
    MoveKeeps(s, Next(s, a), a.w);
  }

  lemma SenderOwned(s: State, a: Step)
    requires Owned(s) && Enabled(s, a) && (a.Recheck? || a.Sent? || a.Discard? || a.CloseReceiver?)
    ensures Owned(Next(s, a))
  {
    MoveKeeps(s, Next(s, a), a.w);
  }

  lemma StepKept(s: State, a: Step)
    requires Good(s) && Enabled(s, a)
    ensures Kept(Next(s, a))
  {
    forall w | 0 <= w < |Next(s, a).calls| && Live(Next(s, a).calls[w]) ensures Placed(Next(s, a), w) { StepKeepsWaiter(s, a, w); }
  }

  /** The steps that move waiters between `pending`, the reader's hand and the results. */
  lemma TransferKeepsWaiter(s: State, a: Step, w: nat)
    requires Owned(s) && Kept(s) && Enabled(s, a) && (a.Drain? || a.Take? || a.Complete?) && w < |s.calls| && Live(s.calls[w])
    ensures Placed(Next(s, a), w)
  {
    assert Placed(s, w);
  }

  lemma UnlistKeepsWaiter(s: State, v: nat, w: nat)
    requires Kept(s) && Receivers(s) && Enabled(s, Unlist(v)) && w < |s.calls| && w != v && Live(s.calls[w])
    ensures Placed(Next(s, Unlist(v)), w)
  {
    assert Placed(s, w) && w !in s.closed;
  }

  /** The other steps leave waiters where they are, or insert one. */
  lemma OtherKeepsWaiter(s: State, a: Step, w: nat)
    requires Kept(s) && Enabled(s, a) && !a.Drain? && !a.Take? && !a.Complete? && !a.Unlist?
    requires w < |Next(s, a).calls| && Live(Next(s, a).calls[w])
    ensures Placed(Next(s, a), w)
  {
    var t := Next(s, a);
    assert t.hand == s.hand && t.results == s.results;
    if t.pending == s.pending {
      assert Live(s.calls[w]) && t.calls[w].seqno == s.calls[w].seqno;
      assert Placed(s, w);
    } else if a.w != w {
      assert Placed(s, w);
    }
  }

  lemma StepKeepsWaiter(s: State, a: Step, w: nat)
    requires Good(s) && Enabled(s, a) && w < |Next(s, a).calls| && Live(Next(s, a).calls[w])
    ensures Placed(Next(s, a), w)
  {
    if a.Drain? || a.Take? || a.Complete? {
      TransferKeepsWaiter(s, a, w);
    } else if a.Unlist? {
      UnlistKeepsWaiter(s, a.w, w);
    } else {
      OtherKeepsWaiter(s, a, w);
    }
  }

  lemma StepReceivers(s: State, a: Step)
    requires Receivers(s) && Enabled(s, a)
    ensures Receivers(Next(s, a))
  {
  }

  /** The steps that change the close cell or what is being drained. */
  lemma CloserDoomed(s: State, a: Step)
    requires Doomed(s) && Enabled(s, a) && (a.Fail? || a.SetReason? || a.ReadReason? || a.Drain?)
    ensures Doomed(Next(s, a))
  {
    var t := Next(s, a);
    if a.SetReason? || a.ReadReason? {
      assert DrainComes(t.closers[a.c]);
    } else if a.Fail? && NoDrain(t) {
      forall c | 0 <= c < |s.closers| ensures !DrainComes(s.closers[c]) {
        assert !DrainComes(t.closers[c]);
      }
    }
  }

  /** The steps that leave the close cell and the closers alone, and add no waiter or a midway one. */
  lemma OtherDoomed(s: State, t: State)
    requires Doomed(s) && t.close == s.close && t.closers == s.closers
    requires forall q | q in t.pending ::
               t.pending[q] < |t.calls| &&
               (Midway(t.calls[t.pending[q]]) ||
                (q in s.pending && t.pending[q] == s.pending[q] && s.pending[q] < |s.calls| && !Midway(s.calls[s.pending[q]])))
    ensures Doomed(t)
  {
  }

  /** Before the insertion a call has no waiter of its own in the map. */
  lemma EntryDoomed(s: State, a: Step)
    requires Owned(s) && Doomed(s) && Enabled(s, a) && s.close.Some?
    requires a.Call? || a.Check? || a.Allocate? || a.Raise?
    ensures Doomed(Next(s, a))
  {
    OtherDoomed(s, Next(s, a));
  }

  lemma InsertDoomed(s: State, w: nat)
    requires Owned(s) && Doomed(s) && Enabled(s, Insert(w)) && s.close.Some?
    ensures Doomed(Next(s, Insert(w)))
  {
    OtherDoomed(s, Next(s, Insert(w)));
  }

  /** After it, a call that was midway stays so until `send` returns. */
  lemma SenderDoomed(s: State, a: Step)
    requires Owned(s) && Doomed(s) && Enabled(s, a) && s.close.Some?
    requires a.Recheck? || a.Sent? || a.Discard? || a.CloseReceiver?
    ensures Doomed(Next(s, a))
  {
    OtherDoomed(s, Next(s, a));
  }

  lemma ReaderDoomed(s: State, a: Step)
    requires Good(s) && Enabled(s, a) && s.close.Some? && (a.Unlist? || a.Take? || a.Complete?)
    ensures Doomed(Next(s, a))
  {
    OtherDoomed(s, Next(s, a));
  }

  lemma StepDoomed(s: State, a: Step)
    requires Good(s) && Enabled(s, a)
    ensures Doomed(Next(s, a))
  {
    if a.Fail? || a.SetReason? || a.ReadReason? || a.Drain? {
      CloserDoomed(s, a);
    } else if s.close.Some? {
      if a.Unlist? || a.Take? || a.Complete? {
        ReaderDoomed(s, a);
      } else if a.Recheck? || a.Sent? || a.Discard? || a.CloseReceiver? {
        SenderDoomed(s, a);
      } else if a.Insert? {
        InsertDoomed(s, a.w);
      } else {
        EntryDoomed(s, a);
      }
    }
  }

  // ----- Runs

  lemma StepGood(s: State, a: Step)
    requires Good(s) && Enabled(s, a)
    ensures Good(Next(s, a))
  {
    StepOwned(s, a);
    StepKept(s, a);
    StepReceivers(s, a);
    StepDoomed(s, a);
  }

  ghost predicate Runs(s: State, steps: seq<Step>)
    decreases |steps|
  {
    steps != [] ==> Enabled(s, steps[0]) && Runs(Next(s, steps[0]), steps[1..])
  }

  ghost function Final(s: State, steps: seq<Step>): State
    requires Runs(s, steps)
    decreases |steps|
  {
    if steps == [] then s else Final(Next(s, steps[0]), steps[1..])
  }

  lemma {:induction false} RunGood(s: State, steps: seq<Step>)
    requires Good(s) && Runs(s, steps)
    ensures Good(Final(s, steps))
    decreases |steps|
  {
    if steps != [] {
      StepGood(s, steps[0]);
      RunGood(Next(s, steps[0]), steps[1..]);
    }
  }

  /** `send` has started and not returned. */
  predicate InSend(c: Call) {
    c.New? || c.Checked? || c.Allocating? || c.Ready? || c.Inserted? || c.Sending? || ((c.Dropping? || c.Unlisting?) && c.midSend)
  }

  /** No `send` and no `fail_pending` is mid-step. */
  ghost predicate Quiet(s: State) {
    && (forall w | 0 <= w < |s.calls| :: !InSend(s.calls[w]))
    && (forall c | 0 <= c < |s.closers| :: s.closers[c].Closed?)
  }

  /** The close race, for any number of interleaved senders, droppers and closers: once a close
      reason is set and nobody is mid-step, nothing is pending; and every request that `send`
      returned and whose owner still holds it has been completed, unless the reader has its waiter
      in hand. */
  lemma CloseLeavesNothingPending(steps: seq<Step>)
    requires Runs(Initial, steps) && Final(Initial, steps).close.Some? && Quiet(Final(Initial, steps))
    ensures
      var s := Final(Initial, steps);
      && s.pending == map[]
      && forall w | 0 <= w < |s.calls| && s.calls[w].Open? :: w in s.hand || w in s.results
  {
    RunGood(Initial, steps);
    var s := Final(Initial, steps);
    assert NoDrain(s);
    assert s.pending.Keys == {};
    forall w | 0 <= w < |s.calls| && s.calls[w].Open? ensures w in s.hand || w in s.results {
      assert Live(s.calls[w]);
    }
  }

  /** A waiter is completed at most once: a completion is never replaced. The first close reason
      never changes. */
  lemma {:induction false} CompletionsAreFinal(s: State, steps: seq<Step>)
    requires Good(s) && Runs(s, steps)
    ensures
      var t := Final(s, steps);
      && (forall w | w in s.results :: w in t.results && t.results[w] == s.results[w])
      && (s.close.Some? ==> t.close == s.close)
    decreases |steps|
  {
    if steps != [] {
      var t := Next(s, steps[0]);
      StepGood(s, steps[0]);
      forall w | w in s.results ensures w in t.results && t.results[w] == s.results[w] {
        CompletionStays(s, steps[0], w);
      }
      CompletionsAreFinal(t, steps[1..]);
    }
  }

  lemma CompletionStays(s: State, a: Step, w: nat)
    requires Good(s) && Enabled(s, a) && w in s.results
    ensures w in Next(s, a).results && Next(s, a).results[w] == s.results[w]
  {
  }

  /** How often the step sends to waiter `w`: a drain sends once for every entry that holds it. */
  function Sends(s: State, a: Step, w: nat): nat
    requires Enabled(s, a)
  {
    match a
    case Drain(_) => |set q | q in s.pending && s.pending[q] == w|
    case Complete(v) => if v == w then 1 else 0
    case _ => 0
  }

  /** A step sends to a waiter at most once, never to one that was completed, and what it sends to is
      then completed. */
  lemma StepSendsOnce(s: State, a: Step, w: nat)
    requires Good(s) && Enabled(s, a)
    ensures Sends(s, a, w) + (if w in s.results then 1 else 0) == if w in Next(s, a).results then 1 else 0
  {
    if a.Drain? {
      DrainSendsOnce(s, w);
    }
  }

  lemma DrainSendsOnce(s: State, w: nat)
    requires Owned(s)
    ensures |set q | q in s.pending && s.pending[q] == w| == if w in s.pending.Values then 1 else 0
    ensures w in s.pending.Values ==> w !in s.results
  {
    var qs := set q | q in s.pending && s.pending[q] == w;
    assert forall q | q in s.pending :: s.pending[q] in s.pending.Values;
    if w in s.pending.Values {
      var q :| q in s.pending && s.pending[q] == w;
      forall p | p in qs ensures p == q { assert Listed(s.calls[w], p) && Listed(s.calls[w], q); }
      assert qs == {q};
    }
  }

  /** How often a run sends to waiter `w`. */
  ghost function TotalSends(s: State, steps: seq<Step>, w: nat): nat
    requires Runs(s, steps)
    decreases |steps|
  {
    if steps == [] then 0 else Sends(s, steps[0], w) + TotalSends(Next(s, steps[0]), steps[1..], w)
  }

  lemma {:induction false} RunSendsOnce(s: State, steps: seq<Step>, w: nat)
    requires Good(s) && Runs(s, steps)
    ensures TotalSends(s, steps, w) + (if w in s.results then 1 else 0) == if w in Final(s, steps).results then 1 else 0
    decreases |steps|
  {
    if steps != [] {
      StepGood(s, steps[0]);
      StepSendsOnce(s, steps[0], w);
      RunSendsOnce(Next(s, steps[0]), steps[1..], w);
    }
  }

  /** Over every run a waiter is sent to at most once: once if it has been completed, and else never. */
  lemma CompletedAtMostOnce(steps: seq<Step>, w: nat)
    requires Runs(Initial, steps)
    ensures TotalSends(Initial, steps, w) == if w in Final(Initial, steps).results then 1 else 0
  {
    RunSendsOnce(Initial, steps, w);
  }

  /** Every completion is the response to the waiter's own number or the close reason. */
  lemma CompletionsAreRight(steps: seq<Step>, w: nat)
    requires Runs(Initial, steps) && w in Final(Initial, steps).results
    ensures
      var s := Final(Initial, steps);
      w < |s.calls| && HasWaiter(s.calls[w]) &&
      match s.results[w]
      case Response(q) => s.calls[w].seqno == q
      case Failure(reason) => s.close == Some(reason)
  {
    RunGood(Initial, steps);
    assert Right(Final(Initial, steps), w);
  }

  /** Inserting a waiter never overwrites one. */
  lemma InsertOverwritesNothing(s: State, w: nat)
    requires Enabled(s, Insert(w))
    ensures forall q | q in s.pending :: q in Next(s, Insert(w)).pending && Next(s, Insert(w)).pending[q] == s.pending[q]
  {
  }

  /** Dropping a request removes its own entry, and never the entry of a request that is alive,
      even when the number is in use again. */
  lemma DropSparesOthers(s: State, w: nat)
    requires Good(s) && Enabled(s, Unlist(w))
    ensures
      var t := Next(s, Unlist(w));
      && (forall q | q in s.pending && s.pending[q] !in s.closed :: q in t.pending && t.pending[q] == s.pending[q])
      && (forall q | q in t.pending :: q in s.pending && t.pending[q] == s.pending[q] && t.pending[q] != w)
  {
    forall q | q in s.pending && s.pending[q] == w ensures q == s.calls[w].seqno { assert Listed(s.calls[w], q); }
  }

  /** Once the close reason is set, it stays, and a call that has not passed its check never does. */
  lemma {:induction false} ClosedRefuses(s: State, steps: seq<Step>, w: nat)
    requires Runs(s, steps) && s.close.Some? && (w < |s.calls| ==> s.calls[w].New? || s.calls[w].Rejected?)
    ensures
      var t := Final(s, steps);
      t.close == s.close && (w < |t.calls| ==> t.calls[w].New? || t.calls[w].Rejected?)
    decreases |steps|
  {
    if steps != [] { ClosedRefuses(Next(s, steps[0]), steps[1..], w); }
  }

  /** A send that begins after the close is refused: its waiter is never listed and never completed. */
  lemma LateSendIsRefused(before: seq<Step>, after: seq<Step>, w: nat)
    requires Runs(Initial, before) && Runs(Final(Initial, before), after)
    requires Final(Initial, before).close.Some? && w >= |Final(Initial, before).calls|
    ensures Runs(Initial, before + after)
    ensures
      var t := Final(Initial, before + after);
      && t.close == Final(Initial, before).close && (w < |t.calls| ==> t.calls[w].New? || t.calls[w].Rejected?)
      && w !in t.hand && w !in t.results && (forall q | q in t.pending :: t.pending[q] != w)
  {
    RunOn(Initial, before, after);
    ClosedRefuses(Final(Initial, before), after, w);
    RunGood(Initial, before + after);
    var t := Final(Initial, before + after);
    forall v | v in t.results ensures v < |t.calls| && HasWaiter(t.calls[v]) { assert Right(t, v); }
  }

  // ----- Sequence numbers

  /** The number of a call: the one it asks for, or the one it got. */
  predicate Carries(c: Call, q: nat) {
    match c
    case New(wanted) => wanted == Explicit(q) && q > 0
    case Checked(wanted) => wanted == Explicit(q) && q > 0
    case Rejected => true
    case _ => c.seqno == q
  }

  lemma StepCarries(s: State, a: Step, w: nat, q: nat)
    requires Enabled(s, a) && w < |s.calls| && Carries(s.calls[w], q)
    ensures w < |Next(s, a).calls| && Carries(Next(s, a).calls[w], q)
  {
  }

  /** A positive number that a request asks for is the only one it can get, and a number that a request
      has got never changes. */
  lemma {:induction false} NumberStays(s: State, steps: seq<Step>, w: nat, q: nat)
    requires Runs(s, steps) && w < |s.calls| && Carries(s.calls[w], q)
    ensures w < |Final(s, steps).calls| && Carries(Final(s, steps).calls[w], q)
    decreases |steps|
  {
    if steps != [] {
      StepCarries(s, steps[0], w, q);
      NumberStays(Next(s, steps[0]), steps[1..], w, q);
    }
  }

  /** Numbers that have been returned are below the counter, which fits in 64 bits. */
  ghost predicate Counted(s: State) { s.next <= MAX && forall q | q in s.returned :: q < s.next }

  /** The step takes the last number and wraps the counter around. */
  predicate Wraps(s: State, a: Step)
    requires Enabled(s, a)
  {
    a.Allocate? && Wish(s.calls[a.w].wanted).None? && s.next == MAX
  }

  /** The counter stays above every returned number unless it wraps around. */
  lemma StaysCounted(s: State, a: Step)
    requires Counted(s) && Enabled(s, a)
    ensures Counted(Next(s, a)) <==> !Wraps(s, a) || s.returned == {}
  {
    if Wraps(s, a) && s.returned != {} {
      var q :| q in s.returned;
      assert q in Next(s, a).returned && !(q < Next(s, a).next);
    }
  }

  ghost predicate NeverWraps(s: State, steps: seq<Step>)
    requires Runs(s, steps)
    decreases |steps|
  {
    steps == [] || (!Wraps(s, steps[0]) && NeverWraps(Next(s, steps[0]), steps[1..]))
  }

  lemma {:induction false} RunCounted(s: State, steps: seq<Step>)
    requires Counted(s) && Runs(s, steps) && NeverWraps(s, steps)
    ensures Counted(Final(s, steps))
    decreases |steps|
  {
    if steps != [] {
      StaysCounted(s, steps[0]);
      RunCounted(Next(s, steps[0]), steps[1..]);
    }
  }

  /** While the counter has not wrapped, an automatic number differs from every number an earlier
      call has returned, explicit or automatic. */
  lemma AutomaticNumbersAreNew(steps: seq<Step>, w: nat)
    requires Runs(Initial, steps) && NeverWraps(Initial, steps) && Enabled(Final(Initial, steps), Allocate(w))
    requires var wanted := Final(Initial, steps).calls[w].wanted; wanted == Auto || wanted == Explicit(0)
    ensures
      var s := Final(Initial, steps);
      Next(s, Allocate(w)).calls[w].Allocating? && Next(s, Allocate(w)).calls[w].seqno !in s.returned
  {
    RunCounted(Initial, steps);
  }

  /** Two runs one after the other. */
  lemma {:induction false} RunOn(s: State, a: seq<Step>, b: seq<Step>)
    requires Runs(s, a) && Runs(Final(s, a), b)
    ensures Runs(s, a + b) && Final(s, a + b) == Final(Final(s, a), b)
    decreases |a|
  {
    if a == [] {
      assert a + b == b;
    } else {
      assert (a + b)[1..] == a[1..] + b;
      RunOn(Next(s, a[0]), a[1..], b);
    }
  }

  /** A client that is not closed takes a call as far as its number. */
  lemma Numbered(s: State, wanted: Wanted, q: nat) returns (steps: seq<Step>)
    requires s.close.None? && q == (if Wish(wanted).Some? then Wish(wanted).value else s.next) && s.next <= MAX
    ensures Runs(s, steps)
    ensures
      var t := Final(s, steps);
      var next := if Wish(wanted).Some? then s.next else Bumped(s.next);
      t == s.(calls := t.calls, next := if q >= MAX then next else Max(next, q + 1),
              returned := if q >= MAX then s.returned else s.returned + {q})
  {
    var w := |s.calls|;
    var next := if Wish(wanted).Some? then s.next else Bumped(s.next);
    steps := [Call(wanted), Check(w), Allocate(w), Raise(w)];
    var s1 := s.(calls := s.calls + [New(wanted)]);
    var s2 := s1.(calls := s1.calls[w := Checked(wanted)]);
    var s3 := s2.(calls := s2.calls[w := Allocating(q)], next := next);
    var s4 := Next(s3, Raise(w));
    assert Next(s, steps[0]) == s1 && Next(s1, steps[1]) == s2 && Next(s2, steps[2]) == s3;
    assert Runs(s4, []) && Final(s4, []) == s4;
    assert steps[3..][1..] == [] && Runs(s3, steps[3..]) && Final(s3, steps[3..]) == s4;
    assert steps[2..][1..] == steps[3..] && Runs(s2, steps[2..]) && Final(s2, steps[2..]) == s4;
    assert steps[1..][1..] == steps[2..] && Runs(s1, steps[1..]) && Final(s1, steps[1..]) == s4;
  }

  /** An automatic request gets 1, an explicit one MAX - 1, and of the automatic ones that follow the
      first is refused and wraps the counter, and the second gets 0. */
  lemma WrapAround() returns (steps: seq<Step>)
    ensures Runs(Initial, steps)
    ensures
      var s := Final(Initial, steps);
      s.close.None? && s.next == 1 && s.returned == {0, 1, MAX - 1}
  {
    var s := Initial;
    steps := Numbered(s, Auto, 1);
    s := Final(s, steps);
    assert s.next == 2 && s.returned == {1};
    var more := Numbered(s, Explicit(MAX - 1), MAX - 1);
    RunOn(Initial, steps, more);
    steps, s := steps + more, Final(s, more);
    assert s.next == MAX;
    more := Numbered(s, Auto, MAX);
    RunOn(Initial, steps, more);
    steps, s := steps + more, Final(s, more);
    assert s.next == 0;
    more := Numbered(s, Auto, 0);
    RunOn(Initial, steps, more);
    steps := steps + more;
  }

  /** After the counter wraps, numbers repeat: a run at whose end an automatic request gets a number
      that an earlier call has returned. */
  lemma NumbersRepeatAfterWrap() returns (steps: seq<Step>, w: nat)
    ensures Runs(Initial, steps) && Enabled(Final(Initial, steps), Allocate(w))
    ensures
      var s := Final(Initial, steps);
      s.calls[w] == Checked(Auto) && Next(s, Allocate(w)).calls[w] == Allocating(1) && 1 in s.returned
  {
    var before := WrapAround();
    var s := Final(Initial, before);
    w := |s.calls|;
    var more := [Call(Auto), Check(w)];
    var s1 := s.(calls := s.calls + [New(Auto)]);
    var s2 := Next(s1, Check(w));
    assert Next(s, more[0]) == s1 && more[1..] == [Check(w)] && more[1..][1..] == [];
    assert Runs(s2, []) && Runs(s1, more[1..]) && Final(s1, more[1..]) == s2;
    RunOn(Initial, before, more);
    steps := before + more;
  }

  // ----- The shared object

  /** The pending map, the close cell and the counter, with what waiters were completed with. Each
      method is one section of a thread: it takes any state that agrees with the object to the next. */
  class Shared {
    var pending: map<nat, nat>
    var close: Option<Reason>
    var next: nat
    var results: map<nat, Outcome>

    predicate Agrees(s: State)
      reads this
    {
      pending == s.pending && close == s.close && next == s.next && results == s.results
    }

    constructor ()
      ensures Agrees(Initial)
    {
      pending, close, next, results := map[], None, 1, map[];
    }

    /** The look at the close cell before a number is taken. */
    method Check(ghost s: State, ghost w: nat) returns (refused: bool)
      requires Agrees(s) && Enabled(s, Step.Check(w))
      ensures Agrees(Next(s, Step.Check(w)))
      ensures Next(s, Step.Check(w)).calls[w] == if refused then Rejected else Checked(s.calls[w].wanted)
    {
      refused := close.Some?;
    }

    /** The number of a request: its own, or the counter, which moves on by one on 64 bits. */
    method Allocate(wanted: Wanted, ghost s: State, ghost w: nat) returns (seqno: nat)
      requires Agrees(s) && Enabled(s, Step.Allocate(w)) && s.calls[w].wanted == wanted
      modifies this`next
      ensures Agrees(Next(s, Step.Allocate(w))) && Next(s, Step.Allocate(w)).calls[w] == Allocating(seqno)
    {
      if wanted.Explicit? && wanted.seqno > 0 { return wanted.seqno; }
      seqno := next;
      next := if next >= MAX then 0 else next + 1;
    }

    /** `checked_add` and `fetch_max`. */
    method RaiseTo(seqno: nat, ghost s: State, ghost w: nat) returns (ok: bool)
      requires Agrees(s) && Enabled(s, Raise(w)) && s.calls[w].seqno == seqno
      modifies this`next
      ensures Agrees(Next(s, Raise(w))) && Next(s, Raise(w)).calls[w] == if ok then Ready(seqno) else Rejected
    {
      ok := seqno < MAX;
      if ok && next < seqno + 1 { next := seqno + 1; }
    }

    /** The insertion under the lock. */
    method Insert(seqno: nat, waiter: nat, ghost s: State)
      returns (ok: bool)
      requires Agrees(s) && Enabled(s, Step.Insert(waiter)) && s.calls[waiter].seqno == seqno
      modifies this`pending
      ensures Agrees(Next(s, Step.Insert(waiter)))
      ensures Next(s, Step.Insert(waiter)).calls[waiter] == if ok then Inserted(seqno) else Rejected
    {
      ok := seqno !in pending;
      if ok { pending := pending[seqno := waiter]; }
    }

    /** The look at the close cell after the insertion. */
    method Recheck(seqno: nat, ghost s: State, ghost w: nat) returns (refused: bool)
      requires Agrees(s) && Enabled(s, Step.Recheck(w)) && s.calls[w].seqno == seqno
      ensures Agrees(Next(s, Step.Recheck(w)))
      ensures Next(s, Step.Recheck(w)).calls[w] == if refused then Dropping(seqno, true) else Sending(seqno)
    {
      refused := close.Some?;
    }

    /** The lookup and removal in `Drop`, with the waiters whose receiver is closed. */
    method Unlist(seqno: nat, closed: set<nat>, ghost s: State, ghost w: nat)
      requires Agrees(s) && Enabled(s, Step.Unlist(w)) && s.calls[w].seqno == seqno && closed == s.closed
      modifies this`pending
      ensures Agrees(Next(s, Step.Unlist(w)))
    {
      if seqno in pending && pending[seqno] in closed { pending := pending - {seqno}; }
    }

    /** `send_if_modified`: the first reason stays. */
    method SetReason(reason: Reason, ghost s: State, ghost c: nat)
      requires Agrees(s) && Enabled(s, Step.SetReason(c)) && s.closers[c].reason == reason
      modifies this`close
      ensures Agrees(Next(s, Step.SetReason(c)))
    {
      if close.None? { close := Some(reason); }
    }

    /** The reason that a closer reads back. */
    method ReadReason(ghost s: State, ghost c: nat) returns (reason: Reason)
      requires Agrees(s) && Enabled(s, Step.ReadReason(c))
      ensures Agrees(Next(s, Step.ReadReason(c))) && Next(s, Step.ReadReason(c)).closers[c] == Draining(reason)
    {
      reason := close.value;
    }

    /** The drain: complete every waiter that is pending, one after the other. */
    method Drain(reason: Reason, ghost s: State, ghost c: nat)
      requires Agrees(s) && Enabled(s, Step.Drain(c)) && s.closers[c].reason == reason
      modifies this`pending, this`results
      ensures Agrees(Next(s, Step.Drain(c)))
    {
      results := CompleteAll(pending, results, reason);
      pending := map[];
    }

    /** The reader takes out the waiter of a response, if there is one, ... */
    method Take(seqno: nat, ghost s: State) returns (waiter: Option<nat>)
      requires Agrees(s)
      modifies this`pending
      ensures waiter.Some? <==> Enabled(s, Step.Take(seqno))
      ensures waiter.None? ==> Agrees(s)
      ensures waiter.Some? ==>
                Agrees(Next(s, Step.Take(seqno))) && Next(s, Step.Take(seqno)).hand == s.hand[waiter.value := seqno]
    {
      if seqno !in pending { return None; }
      waiter := Some(pending[seqno]);
      pending := pending - {seqno};
    }

    /** ... and completes it. */
    method Complete(waiter: nat, seqno: nat, ghost s: State)
      requires Agrees(s) && Enabled(s, Step.Complete(waiter)) && s.hand[waiter] == seqno
      modifies this`results
      ensures Agrees(Next(s, Step.Complete(waiter)))
    {
      results := results[waiter := Response(seqno)];
    }
  }

  /** Complete the waiters of a drained map, one after the other. */
  method CompleteAll(waiters: map<nat, nat>, results: map<nat, Outcome>, reason: Reason) returns (out: map<nat, Outcome>)
    ensures out == results + Drained(waiters, reason)
  {
    var rest := waiters.Values;
    out := results;
    while rest != {}
      invariant rest <= waiters.Values
      invariant out.Keys == results.Keys + (waiters.Values - rest)
      invariant forall w | w in out :: out[w] == if w in waiters.Values - rest then Failure(reason) else results[w]
      decreases rest
    {
      var w :| w in rest;
      out := out[w := Failure(reason)];
      rest := rest - {w};
    }
  }
}
