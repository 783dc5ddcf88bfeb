/** Scheduling order: requests leave the queue by priority, then by arrival. */
module SchedulerOrder {
  import opened Options
  import opened Messages
  import opened Scheduler
  import opened SchedulerInv

  /** Execute `a` was sent before execute `b` and is at least as urgent. */
  predicate Precedes(sent: seq<Request>, a: nat, b: nat) {
    a < b < |sent| && sent[a].kind.Execute? && sent[b].kind.Execute? && sent[a].priority >= sent[b].priority
  }

  /** Whatever precedes a dispatched request was dispatched before it. */
  ghost predicate InOrder(sent: seq<Request>, ds: seq<nat>) {
    forall j, a | 0 <= j < |ds| && Precedes(sent, a, ds[j]) :: a in ds[..j]
  }

  lemma InOrderLater(sent: seq<Request>, later: seq<Request>, ds: seq<nat>)
    requires InOrder(sent, ds) && sent <= later && forall n | n in ds :: n < |sent|
    ensures InOrder(later, ds)
  {
    forall j, a | 0 <= j < |ds| && Precedes(later, a, ds[j]) ensures a in ds[..j] {
      assert ds[j] in ds;
      assert Precedes(sent, a, ds[j]);
    }
  }

  /** What has been enqueued and has not left is queued. */
  ghost predicate Partitioned(s: Shell) {
    InRange(s) && forall n: nat :: n in s.queue <==> n < s.order && n !in s.dispatched
  }

  lemma AbortInOrder(s: Shell)
    requires Partitioned(s) && InOrder(s.sent, s.dispatched)
    ensures InOrder(s.sent, AbortPending(s).dispatched)
  {
    var d := DrainIncoming(s);
    var ns := Ranked(d.sent, Executes(d));
    var ds := d.dispatched + ns;
    forall j, a | 0 <= j < |ds| && Precedes(s.sent, a, ds[j]) ensures a in ds[..j] {
      if j < |d.dispatched| {
        assert ds[..j] == d.dispatched[..j];
      } else {
        var k := j - |d.dispatched|;
        assert ds[..j] == d.dispatched + ns[..k];
        assert ds[j] == ns[k] && ns[k] in d.queue;
        if a !in d.dispatched {
          assert a in Executes(d);
          var i :| 0 <= i < |ns| && ns[i] == a;
          assert !Better(d.sent, ns[k], ns[i]);
          assert i < k && ns[i] in ns[..k];
        }
      }
    }
  }

  /** Nothing that precedes the request to be popped is in the queue. */
  lemma NoneAhead(s: Shell, a: nat)
    requires InRange(s) && Runnable(s).Some? && Precedes(s.sent, a, Runnable(s).value)
    ensures a !in s.queue
  {
    assert !Better(s.sent, Runnable(s).value, a);
    assert Eligible(s, a) <==> a in s.queue;
  }

  /** Popping keeps the order. */
  lemma PopInOrder(s: Shell)
    requires Structured(s) && InOrder(s.sent, s.dispatched) && Runnable(s).Some?
    ensures InOrder(s.sent, s.dispatched + [Runnable(s).value])
  {
    var n := Runnable(s).value;
    var ds := s.dispatched + [n];
    forall j, a | 0 <= j < |ds| && Precedes(s.sent, a, ds[j]) ensures a in ds[..j] {
      if j < |s.dispatched| {
        assert ds[..j] == s.dispatched[..j];
      } else {
        assert ds[..j] == s.dispatched;
        NoneAhead(s, a);
      }
    }
  }

  lemma HandleInOrder(s: Shell, service: Service)
    requires Structured(s) && InOrder(s.sent, s.dispatched) && Runnable(s).Some?
    ensures
      var t := Handle(s, Runnable(s).value, service);
      InOrder(t.sent, t.dispatched)
  {
    var n := Runnable(s).value;
    PopInOrder(s);
    if IsExecute(s, n) && !s.interrupting && !s.sent[n].hasCode {
      PoppedStructured(s, n);
      AbortInOrder(Popped(s, n).(log := s.log + RefuseScript(n, "MissingField", s.count)));
    }
  }

  lemma ReleaseInOrder(s: Shell, status: string)
    requires Partitioned(s) && InOrder(s.sent, s.dispatched) && s.held.Some?
    ensures InOrder(s.sent, FailHold(s, status).dispatched)
  {
    AbortInOrder(EndHold(s, status));
  }

  lemma InterruptInOrder(s: Shell)
    requires Partitioned(s) && InOrder(s.sent, s.dispatched)
    ensures InOrder(s.sent, ApplyInterrupt(s).dispatched)
  {
    var i := s.(interrupting := true, active := Poke(s.active));
    AbortInOrder(if i.held.Some? then EndHold(i, "interrupt") else i);
  }

  lemma ControlInOrder(s: Shell)
    requires Partitioned(s) && InOrder(s.sent, s.dispatched) && s.applied < |s.commands|
    ensures InOrder(s.sent, ApplyControl(s).dispatched)
  {
    var r := s.(applied := s.applied + 1);
    match s.commands[s.applied] {
      case Release(msgId, status) => if Releases(s, msgId) { ReleaseInOrder(r, status); }
      case Interrupt(_) => InterruptInOrder(r);
      case Stop =>
    }
  }

  lemma SettleInOrder(s: Shell)
    requires Structured(s) && InOrder(s.sent, s.dispatched)
    ensures InOrder(s.sent, Settle(s).dispatched)
  {
    if s.active.Some? && Finished(s.active.value) { AbortInOrder(s.(active := None)); }
  }

  lemma StepInOrder(s: Shell, a: Step)
    requires Conserved(s) && InOrder(s.sent, s.dispatched) && Enabled(s, a)
    ensures InOrder(Next(s, a).sent, Next(s, a).dispatched)
  {
    match a {
      case Send(r) => InOrderLater(s.sent, s.sent + [r], s.dispatched);
      case TakeControl => if s.applied < |s.commands| { ControlInOrder(s); }
      case WakeControl => ControlInOrder(s);
      case WakeDone => AbortInOrder(s.(active := None));
      case WakeTimeout => AbortInOrder(EndHold(s, "timeout"));
      case Pass(service) =>
        SettleInOrder(s);
        SettleConserves(s);
        if !Settle(s).point.Exited? && Runnable(Settle(s)).Some? { HandleInOrder(Settle(s), service); }
      case _ =>
    }
  }
}
