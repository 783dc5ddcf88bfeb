/** The scheduler object as the engine runs it: fields updated in place, a heap popped one item at
    a time, channels drained in loops. Each method is tied to its step in `Scheduler`. */
module ShellService {
  import opened Options
  import opened Messages
  import opened ShellQueue
  import S = Scheduler

  /** The queue item of the request sent at stamp `n`. */
  function ItemOf(sent: seq<Request>, n: nat): QueueItem
    requires n < |sent|
  {
    QueueItem(sent[n].priority, n, sent[n])
  }

  /** The bag `m` holds exactly one item for each stamp in `q`. */
  ghost predicate Represents(m: multiset<QueueItem>, q: set<nat>, sent: seq<Request>) {
    && (forall n | n in q :: n < |sent| && m[ItemOf(sent, n)] == 1)
    && (forall x | x in m :: x.order in q && x.order < |sent| && x == ItemOf(sent, x.order))
  }

  lemma TakeOut(m: multiset<QueueItem>, rest: multiset<QueueItem>, item: QueueItem, q: set<nat>, sent: seq<Request>)
    requires Represents(m, q, sent) && m == rest + multiset{item}
    ensures item.order in q && item == ItemOf(sent, item.order) && Represents(rest, q - {item.order}, sent)
  {
    assert item in m;
    forall n | n in q - {item.order} ensures rest[ItemOf(sent, n)] == 1 {
      assert m[ItemOf(sent, n)] == 1;
    }
    forall x | x in rest ensures x.order in q - {item.order} && x == ItemOf(sent, x.order) {
      assert x in m;
      assert m[ItemOf(sent, item.order)] == 1;
    }
  }

  lemma PutIn(m: multiset<QueueItem>, n: nat, q: set<nat>, sent: seq<Request>)
    requires n < |sent| && Represents(m, q, sent) && n !in q
    ensures Represents(m + multiset{ItemOf(sent, n)}, q + {n}, sent)
  {
    assert ItemOf(sent, n) !in m;
  }

  /** The item a heap pop takes out is the best stamp. */
  lemma BestStamp(m: multiset<QueueItem>, item: QueueItem, q: set<nat>, sent: seq<Request>)
    requires Represents(m, q, sent) && item in m && forall x | x in m :: !Above(x, item)
    ensures S.Stamps(sent, q) && q != {} && S.Best(sent, q) == item.order
  {
    var b := S.Best(sent, q);
    assert ItemOf(sent, b) in m;
    assert !Above(ItemOf(sent, b), item);
  }

  /** The fields of a shell. */
  datatype Fields = Fields(incoming: seq<Request>, controls: seq<S.Control>, queue: seq<QueueItem>, order: nat,
                           held: Option<QueueItem>, active: Option<S.Active>, stopping: bool, interrupting: bool,
                           executionCount: nat, log: seq<Event>)

  /** The fields `f` stand for the scheduler state `m`. */
  ghost predicate Stands(f: Fields, m: S.Shell) {
    && S.InRange(m)
    && f.incoming == m.sent[m.order..] && f.controls == m.commands[m.applied..]
    && Represents(multiset(f.queue), m.queue, m.sent)
    && f.order == m.order && f.active == m.active && f.log == m.log
    && f.held == (if m.held.Some? then Some(ItemOf(m.sent, m.held.value)) else None)
    && f.stopping == m.stopping && f.interrupting == m.interrupting && f.executionCount == m.count
  }

  /** The scheduler states that `f` stands for. */
  ghost function States(f: Fields): iset<S.Shell> { iset m | Stands(f, m) }

  // ----- Enqueueing

  ghost function Enqueued(m: S.Shell): S.Shell { m.(queue := m.queue + {m.order}, order := m.order + 1) }

  lemma EnqueueStands(f: Fields, m: S.Shell, item: QueueItem)
    requires Stands(f, m) && f.incoming != [] && item == QueueItem(f.incoming[0].priority, f.order, f.incoming[0])
    ensures Stands(f.(queue := f.queue + [item], incoming := f.incoming[1..], order := f.order + 1), Enqueued(m))
  {
    PutIn(multiset(f.queue), f.order, m.queue, m.sent);
    assert multiset(f.queue + [item]) == multiset(f.queue) + multiset{item};
  }

  /** The state after the channel has been read up to `hi`. */
  ghost function ReadTo(m: S.Shell, hi: nat): S.Shell { m.(queue := m.queue + S.Span(m.order, hi), order := hi) }

  lemma ReadNothing(f: Fields, m: S.Shell)
    requires Stands(f, m)
    ensures S.InRange(m) && ReadTo(m, m.order) == m
  {
    assert m.queue + S.Span(m.order, m.order) == m.queue;
  }

  lemma ReadOne(m: S.Shell, hi: nat)
    requires m.order <= hi
    ensures Enqueued(ReadTo(m, hi)) == ReadTo(m, hi + 1)
  {
    assert (m.queue + S.Span(m.order, hi)) + {hi} == m.queue + S.Span(m.order, hi + 1);
  }

  lemma ReadAll(f: Fields, m: S.Shell, hi: nat)
    requires S.InRange(m) && Stands(f, ReadTo(m, hi)) && f.incoming == []
    ensures ReadTo(m, hi) == S.DrainIncoming(m)
  {
    assert |ReadTo(m, hi).sent[hi..]| == 0;
  }

  // ----- Aborting

  ghost function ExecutesIn(sent: seq<Request>, q: set<nat>): (e: set<nat>)
    requires S.Stamps(sent, q)
  {
    set n | n in q && sent[n].kind.Execute?
  }

  /** Popping the best request moves the ranking of the execute requests on by one, or not at all. */
  lemma RankAfterPop(sent: seq<Request>, q: set<nat>, b: nat)
    requires S.Stamps(sent, q) && q != {} && S.Best(sent, q) == b
    ensures sent[b].kind.Execute? ==>
              S.Ranked(sent, ExecutesIn(sent, q)) == [b] + S.Ranked(sent, ExecutesIn(sent, q - {b}))
    ensures !sent[b].kind.Execute? ==> ExecutesIn(sent, q - {b}) == ExecutesIn(sent, q)
  {
    var e := ExecutesIn(sent, q);
    if sent[b].kind.Execute? {
      assert b in e;
      var c := S.Best(sent, e);
      assert c in q;
      assert c == b;
      assert e - {b} == ExecutesIn(sent, q - {b});
    }
  }

  /** The state of the abort loop: what is still in the heap, what is kept, and what was aborted. */
  ghost predicate Aborting(d: S.Shell, heap: seq<QueueItem>, keep: seq<QueueItem>, left: set<nat>, done: seq<nat>) {
    && S.InRange(d) && left <= d.queue
    && Represents(multiset(heap), left, d.sent)
    && Represents(multiset(keep), (d.queue - left) - ExecutesIn(d.sent, d.queue), d.sent)
    && S.Ranked(d.sent, ExecutesIn(d.sent, d.queue)) == done + S.Ranked(d.sent, ExecutesIn(d.sent, left))
  }

  lemma AbortOne(d: S.Shell, heap: seq<QueueItem>, keep: seq<QueueItem>, left: set<nat>, done: seq<nat>,
                 item: QueueItem, rest: seq<QueueItem>)
    requires Aborting(d, heap, keep, left, done)
    requires multiset(heap) == multiset(rest) + multiset{item} && forall x | x in heap :: !Above(x, item)
    ensures item.order in left && item == ItemOf(d.sent, item.order) && S.Best(d.sent, left) == item.order
    ensures Represents(multiset(rest), left - {item.order}, d.sent)
  {
    assert item in multiset(heap);
    assert forall x | x in multiset(heap) :: x in heap;
    TakeOut(multiset(heap), multiset(rest), item, left, d.sent);
    BestStamp(multiset(heap), item, left, d.sent);
  }

  lemma Regroup(a: seq<nat>, n: nat, b: seq<nat>)
    ensures a + ([n] + b) == (a + [n]) + b
  {
  }

  lemma AbortExecute(d: S.Shell, heap: seq<QueueItem>, keep: seq<QueueItem>, left: set<nat>, done: seq<nat>,
                     n: nat, rest: seq<QueueItem>)
    requires Aborting(d, heap, keep, left, done) && n in left && S.Best(d.sent, left) == n
    requires Represents(multiset(rest), left - {n}, d.sent) && d.sent[n].kind.Execute?
    ensures Aborting(d, rest, keep, left - {n}, done + [n])
  {
    RankAfterPop(d.sent, left, n);
    var es := ExecutesIn(d.sent, d.queue);
    assert n in es;
    assert (d.queue - (left - {n})) - es == (d.queue - left) - es;
    Regroup(done, n, S.Ranked(d.sent, ExecutesIn(d.sent, left - {n})));
  }

  lemma KeepOther(d: S.Shell, heap: seq<QueueItem>, keep: seq<QueueItem>, left: set<nat>, done: seq<nat>,
                  n: nat, rest: seq<QueueItem>)
    requires Aborting(d, heap, keep, left, done) && n in left && S.Best(d.sent, left) == n
    requires Represents(multiset(rest), left - {n}, d.sent) && !d.sent[n].kind.Execute?
    ensures Aborting(d, rest, keep + [ItemOf(d.sent, n)], left - {n}, done)
  {
    RankAfterPop(d.sent, left, n);
    var es := ExecutesIn(d.sent, d.queue);
    assert (d.queue - (left - {n})) - es == ((d.queue - left) - es) + {n};
    PutIn(multiset(keep), n, (d.queue - left) - es, d.sent);
    assert multiset(keep + [ItemOf(d.sent, n)]) == multiset(keep) + multiset{ItemOf(d.sent, n)};
  }

  /** The loop of `abort_pending`: pop the whole heap, answering execute requests as they come and
      keeping the rest. */
  method AbortHeap(queue: seq<QueueItem>, count: nat, ghost d: S.Shell) returns (keep: seq<QueueItem>, published: seq<Event>)
    requires S.InRange(d) && Represents(multiset(queue), d.queue, d.sent)
    ensures Represents(multiset(keep), d.queue - S.Executes(d), d.sent)
    ensures published == AbortLog(S.Ranked(d.sent, S.Executes(d)), count)
  {
    var heap := queue;
    ghost var left, done := d.queue, [];
    keep, published := [], [];
    assert (d.queue - left) - ExecutesIn(d.sent, d.queue) == {};
    while heap != []
      invariant Aborting(d, heap, keep, left, done) && published == AbortLog(done, count)
      decreases |heap|
    {
      var item, rest := PopBest(heap);
      AbortOne(d, heap, keep, left, done, item, rest);
      if item.inbound.kind.Execute? {
        AbortExecute(d, heap, keep, left, done, item.order, rest);
        published := published + AbortScript(item.order, count);
        done := done + [item.order];
      } else {
        KeepOther(d, heap, keep, left, done, item.order, rest);
        keep := keep + [item];
      }
      heap, left := rest, left - {item.order};
    }
    assert left == {};
    AllPopped(d, keep, done);
  }

  lemma AllPopped(d: S.Shell, keep: seq<QueueItem>, done: seq<nat>)
    requires Aborting(d, [], keep, {}, done)
    ensures Represents(multiset(keep), d.queue - S.Executes(d), d.sent) && done == S.Ranked(d.sent, S.Executes(d))
  {
    ExecutesInQueue(d);
    assert ExecutesIn(d.sent, {}) == {};
    assert (d.queue - {}) - S.Executes(d) == d.queue - S.Executes(d);
  }

  lemma ExecutesInQueue(d: S.Shell)
    requires S.InRange(d)
    ensures ExecutesIn(d.sent, d.queue) == S.Executes(d)
  {
  }

  lemma AbortEnds(m: S.Shell, d: S.Shell, f: Fields, keep: seq<QueueItem>)
    requires S.InRange(m) && d == S.DrainIncoming(m) && Stands(f, d)
    requires Represents(multiset(keep), d.queue - S.Executes(d), d.sent)
    ensures Stands(f.(queue := keep, log := f.log + AbortLog(S.Ranked(d.sent, S.Executes(d)), f.executionCount)), S.AbortPending(m))
  {
  }

  // ----- Popping and handling

  lemma PopStands(f: Fields, m: S.Shell, runnable: Option<QueueItem>, rest: seq<QueueItem>)
    requires Stands(f, m)
    requires runnable.None? ==> multiset(rest) == multiset(f.queue) && forall x | x in f.queue :: !MayRun(x, f.active.Some?, f.held)
    requires runnable.Some? ==>
               && MayRun(runnable.value, f.active.Some?, f.held)
               && multiset(f.queue) == multiset(rest) + multiset{runnable.value}
               && forall x | x in f.queue && MayRun(x, f.active.Some?, f.held) :: !Above(x, runnable.value)
    ensures runnable.None? ==> S.Runnable(m).None? && Stands(f.(queue := rest), m)
    ensures runnable.Some? ==>
              && S.Runnable(m) == Some(runnable.value.order) && runnable.value == ItemOf(m.sent, runnable.value.order)
              && Stands(f.(queue := rest), m.(queue := m.queue - {runnable.value.order}))
  {
    forall n | n in m.queue
      ensures ItemOf(m.sent, n) in f.queue
      ensures MayRun(ItemOf(m.sent, n), f.active.Some?, f.held) <==> S.Eligible(m, n)
    {
      assert multiset(f.queue)[ItemOf(m.sent, n)] == 1;
    }
    if runnable.Some? {
      var n := runnable.value.order;
      TakeOut(multiset(f.queue), multiset(rest), runnable.value, m.queue, m.sent);
      var b := S.Runnable(m).value;
      assert !Above(ItemOf(m.sent, b), runnable.value);
    }
  }

  /** Where the item has already been taken out, handling is the same. */
  lemma HandleTakenOut(m: S.Shell, n: nat, service: S.Service)
    requires S.InRange(m) && n < m.order
    ensures S.Handle(m.(queue := m.queue - {n}), n, service) == S.Handle(m, n, service)
  {
    assert (m.queue - {n}) - {n} == m.queue - {n};
  }

  // ----- Field updates

  lemma EndHoldStands(f: Fields, m: S.Shell, status: string)
    requires Stands(f, m) && f.held.Some?
    ensures m.held.Some? && m.held.value == f.held.value.order
    ensures Stands(f.(held := None, log := f.log + HoldScript(f.held.value.order, f.executionCount, status)), S.EndHold(m, status))
  {
  }

  lemma ReadControl(f: Fields, m: S.Shell)
    requires Stands(f, m) && f.controls != []
    ensures m.applied < |m.commands| && m.commands[m.applied] == f.controls[0]
    ensures Stands(f.(controls := f.controls[1..]), m.(applied := m.applied + 1))
    ensures forall msgId :: S.Releases(m, msgId) <==> f.held.Some? && f.held.value.inbound.msgId == msgId
  {
  }

  lemma FlagsStand(f: Fields, m: S.Shell, g: Fields, t: S.Shell)
    requires Stands(f, m)
    requires g == f.(active := g.active, stopping := g.stopping, interrupting := g.interrupting, log := g.log)
    requires t == m.(active := g.active, stopping := g.stopping, interrupting := g.interrupting, log := g.log,
                     fence := t.fence, point := t.point)
    requires g.active.Some? ==> g.active.value.n < m.order
    ensures Stands(g, t)
  {
  }

  lemma ActiveStands(f: Fields, m: S.Shell)
    requires Stands(f, m)
    ensures f.active == m.active && (f.active.Some? ==> f.active.value.n < |m.sent|) && f.interrupting == m.interrupting
  {
  }

  lemma IdleStands(f: Fields, m: S.Shell)
    requires Stands(f, m)
    ensures f.stopping == m.stopping && f.active == m.active && (f.held.None? <==> m.held.None?)
    ensures f.queue == [] <==> m.queue == {}
  {
    if f.queue == [] {
      assert forall n | n in m.queue :: multiset(f.queue)[ItemOf(m.sent, n)] == 1;
    } else {
      assert f.queue[0] in multiset(f.queue);
      assert f.queue[0].order in m.queue;
    }
  }

  /** Handling after the pop is handling from the state before the pop. */
  lemma TakenOut(f: Fields, m: S.Shell, item: QueueItem, t: S.Shell, service: S.Service)
    requires S.InRange(t) && S.Runnable(t) == Some(item.order) && m == t.(queue := t.queue - {item.order}) && Stands(f, m)
    ensures item.order < m.order && item.order !in m.queue
    ensures S.Handle(m, item.order, service) == S.Handle(t, item.order, service)
  {
    HandleTakenOut(t, item.order, service);
  }

  /** A popped execute request starts a hold. */
  lemma HoldStands(f: Fields, m: S.Shell, item: QueueItem, service: S.Service)
    requires Stands(f, m) && item.order < m.order && item == ItemOf(m.sent, item.order) && item.order !in m.queue
    requires item.inbound.kind.Execute? && !f.interrupting && item.inbound.hasCode && item.inbound.hold
    ensures Stands(f.(held := Some(item), log := f.log + OpenScript(item.order, item.inbound, f.executionCount)),
                   S.Handle(m, item.order, service))
  {
    assert m.queue - {item.order} == m.queue;
  }

  /** A popped execute request starts an execution. */
  lemma SpawnStands(f: Fields, m: S.Shell, item: QueueItem, service: S.Service)
    requires Stands(f, m) && item.order < m.order && item == ItemOf(m.sent, item.order) && item.order !in m.queue
    requires item.inbound.kind.Execute? && !f.interrupting && item.inbound.hasCode && !item.inbound.hold
    ensures
      var c := if item.inbound.storeHistory && !item.inbound.silent then f.executionCount + 1 else f.executionCount;
      Stands(f.(executionCount := c, log := f.log + [Spawned(item.order, c)],
                active := Some(S.Active(item.order, c, S.Starting(OpenScript(item.order, item.inbound, c)), 0))),
             S.Handle(m, item.order, service))
  {
    assert m.queue - {item.order} == m.queue;
  }

  /** A popped request that is answered or served at once. */
  lemma AnswerStands(f: Fields, m: S.Shell, item: QueueItem, service: S.Service)
    requires Stands(f, m) && item.order < m.order && item == ItemOf(m.sent, item.order) && item.order !in m.queue
    ensures !item.inbound.kind.Execute? ==>
              Stands(f.(log := f.log + [Served(item.order)]), S.Handle(m, item.order, service))
    ensures item.inbound.kind.Execute? && f.interrupting ==>
              Stands(f.(log := f.log + RefuseScript(item.order, "KeyboardInterrupt", f.executionCount)), S.Handle(m, item.order, service))
  {
    assert m.queue - {item.order} == m.queue;
  }

  /** The state in which a request without code has been answered and the rest is to be aborted. */
  ghost function Refused(m: S.Shell, n: nat): S.Shell {
    m.(queue := m.queue - {n}, dispatched := m.dispatched + [n], point := S.Head,
       log := m.log + RefuseScript(n, "MissingField", m.count))
  }

  lemma RefuseStands(f: Fields, m: S.Shell, item: QueueItem, service: S.Service)
    requires Stands(f, m) && item.order < m.order && item == ItemOf(m.sent, item.order) && item.order !in m.queue
    requires item.inbound.kind.Execute? && !f.interrupting && !item.inbound.hasCode
    ensures Stands(f.(log := f.log + RefuseScript(item.order, "MissingField", f.executionCount)), Refused(m, item.order))
    ensures S.Handle(m, item.order, service) == S.AbortPending(Refused(m, item.order))
  {
    assert m.queue - {item.order} == m.queue;
  }

  lemma NothingLeft(f: Fields, m: S.Shell)
    requires Stands(f, m)
    ensures S.InRange(m) && (f.controls == [] <==> m.applied == |m.commands|)
  {
  }

  /** Taking in a finished execution first does not change what settling does. */
  lemma CompleteSettles(m: S.Shell)
    requires S.InRange(m) && m.active.Some? && S.Finished(m.active.value) && m.active.value.phase.outcome != Broke(Closed)
    ensures S.Complete(m).active.None? && S.Complete(m).point == m.point && S.Settle(S.Complete(m)) == S.Settle(m)
  {
  }

  lemma PassSettles(m: S.Shell, service: S.Service)
    requires S.InRange(m) && m.point.Check?
    ensures var t := S.Settle(m); S.Next(m, S.Pass(service)) == if t.point.Exited? then t else S.Proceed(t, service)
  {
  }

  /** All controls of the channel applied, one after another. */
  ghost function Controlled(m: S.Shell): (t: S.Shell)
    requires S.InRange(m)
    ensures S.InRange(t)
    decreases |m.commands| - m.applied
  {
    if m.applied == |m.commands| then m
    else Controlled(S.ApplyControl(m))
  }

  class Shell {
    var incoming: seq<Request>
    var controls: seq<S.Control>
    var queue: seq<QueueItem>
    var order: nat
    var held: Option<QueueItem>
    var active: Option<S.Active>
    var stopping: bool
    var interrupting: bool
    var executionCount: nat
    /** What has been published and replied, and the tasks spawned. */
    var log: seq<Event>

    /** The scheduler state these fields stand for. */
    ghost var model: S.Shell

    ghost function Value(): Fields
      reads this
    {
      Fields(incoming, controls, queue, order, held, active, stopping, interrupting, executionCount, log)
    }

    ghost predicate Valid()
      reads this
    {
      model in States(Value())
    }

    constructor ()
      ensures Valid() && model == S.Fresh
    {
      incoming, controls, queue, order, held, active := [], [], [], 0, None, None;
      stopping, interrupting, executionCount, log := false, false, 0, [];
      model := S.Fresh;
    }

    /** `enqueue` on the next request of the channel. */
    method Enqueue()
      requires Valid() && incoming != []
      modifies this
      ensures Valid() && |incoming| == |old(incoming)| - 1
      ensures model == Enqueued(old(model))
    {
      var item := QueueItem(incoming[0].priority, order, incoming[0]);
      EnqueueStands(Value(), model, item);
      queue := queue + [item];
      incoming := incoming[1..];
      order := order + 1;
      model := Enqueued(model);
    }

    /** Enqueue everything the request channel holds. */
    method DrainIncoming()
      requires Valid()
      modifies this
      ensures Valid() && model == S.DrainIncoming(old(model))
    {
      ghost var m, hi := model, model.order;
      ReadNothing(Value(), m);
      while incoming != []
        invariant Valid() && S.InRange(m) && m.order <= hi && model == ReadTo(m, hi)
        decreases |incoming|
      {
        ReadOne(m, hi);
        Enqueue();
        hi := hi + 1;
      }
      ReadAll(Value(), m, hi);
    }

    /** `abort_pending`: drain the channel, then pop the whole heap, answering execute requests and
        keeping the rest. */
    method AbortPending()
      requires Valid()
      modifies this
      ensures Valid() && model == S.AbortPending(old(model))
    {
      ghost var m := model;
      DrainIncoming();
      ghost var f := Value();
      var keep, published := AbortHeap(queue, executionCount, model);
      AbortEnds(m, model, f, keep);
      queue := keep;
      log := log + published;
      model := S.AbortPending(m);
    }

    /** `finish_hold` on the hold, which is taken. */
    method FinishHold(status: string) returns (failed: bool)
      requires Valid() && held.Some?
      modifies this
      ensures Valid() && old(model).held.Some? && model == S.EndHold(old(model), status)
      ensures failed <==> HoldError(status).Some?
    {
      EndHoldStands(Value(), model, status);
      var item := held.value;
      log := log + HoldScript(item.order, executionCount, status);
      held := None;
      model := S.EndHold(model, status);
      failed := HoldError(status).Some?;
    }

    /** The `Release` arm of `apply_control`. */
    method Release(msgId: string, status: string) returns (found: bool)
      requires Valid()
      modifies this
      ensures S.InRange(old(model)) && Valid() && found == S.Releases(old(model), msgId)
      ensures model == if found then S.FailHold(old(model), status) else old(model)
    {
      found := held.Some? && held.value.inbound.msgId == msgId;
      if found {
        var failed := FinishHold(status);
        if failed { AbortPending(); }
      }
    }

    /** The `Interrupt` arm of `apply_control`. */
    method Interrupt()
      requires Valid()
      modifies this
      ensures S.InRange(old(model)) && Valid() && model == S.ApplyInterrupt(old(model))
    {
      ghost var f, m := Value(), model;
      ActiveStands(f, m);
      interrupting := true;
      if active.Some? { active := Some(active.value.(interrupts := active.value.interrupts + 1)); }
      model := m.(interrupting := true, active := S.Poke(m.active));
      FlagsStand(f, m, Value(), model);
      if held.Some? { var _ := FinishHold("interrupt"); }
      AbortPending();
      ghost var a := model;
      model := a.(fence := a.order);
      FlagsStand(Value(), a, Value(), model);
    }

    /** `apply_control` on the next control of the channel. */
    method ApplyControl()
      requires Valid() && controls != []
      modifies this
      ensures S.InRange(old(model)) && old(model).applied < |old(model).commands|
      ensures Valid() && model == S.ApplyControl(old(model))
    {
      ghost var m := model;
      ReadControl(Value(), m);
      var control := controls[0];
      controls := controls[1..];
      model := m.(applied := m.applied + 1);
      match control {
        case Release(msgId, status) =>
          var found := Release(msgId, status);
          ghost var f, t := Value(), model;
          log := log + [Acked(found)];
          model := t.(log := t.log + [Acked(found)]);
          FlagsStand(f, t, Value(), model);
        case Interrupt(_) => Interrupt();
        case Stop =>
          ghost var f, t := Value(), model;
          stopping := true;
          model := t.(stopping := true);
          FlagsStand(f, t, Value(), model);
      }
    }

    /** Apply everything the control channel holds. */
    method DrainControls()
      requires Valid()
      modifies this
      ensures S.InRange(old(model)) && Valid() && model == Controlled(old(model)) && controls == []
    {
      NothingLeft(Value(), model);
      while controls != []
        invariant Valid() && S.InRange(model) && Controlled(model) == Controlled(old(model))
        decreases |model.commands| - model.applied
      {
        ApplyControl();
      }
      NothingLeft(Value(), model);
    }

    /** `execution_done`. The task returned `failed` and its request's `stop_on_error`. */
    method ExecutionDone(failed: bool, stopOnError: bool)
      requires Valid() && active.Some? && S.Finished(active.value) && active.value.phase.outcome != Broke(Closed)
      requires failed == !active.value.phase.outcome.Returned?
      requires active.value.n < |model.sent| && stopOnError == model.sent[active.value.n].stopOnError
      modifies this
      ensures S.InRange(old(model)) && old(model).active == old(active)
      ensures Valid() && model == S.Complete(old(model))
    {
      ghost var f, m := Value(), model;
      ActiveStands(f, m);
      active := None;
      model := m.(active := None);
      FlagsStand(f, m, Value(), model);
      if failed && stopOnError && !interrupting { AbortPending(); }
    }

    /** `pop_runnable` on the shell's own queue. */
    method TakeRunnable() returns (item: Option<QueueItem>)
      requires Valid()
      modifies this
      ensures S.InRange(old(model)) && Valid()
      ensures item.None? ==> S.Runnable(old(model)).None? && model == old(model)
      ensures item.Some? ==>
                && S.Runnable(old(model)) == Some(item.value.order)
                && item.value.order < |old(model).sent| && item.value == ItemOf(old(model).sent, item.value.order)
                && model == old(model).(queue := old(model).queue - {item.value.order})
      ensures stopping == old(stopping) && active == old(active) && held == old(held) && interrupting == old(interrupting)
    {
      ghost var f := Value();
      var rest;
      item, rest := PopRunnable(queue, active.Some?, held);
      PopStands(f, model, item, rest);
      queue := rest;
      if item.Some? { model := model.(queue := model.queue - {item.value.order}); }
    }

    ghost predicate Taken(item: QueueItem)
      reads this
    {
      && S.InRange(model) && item.order < model.order && item.order !in model.queue
      && item == ItemOf(model.sent, item.order)
    }

    /** The arm of `handle_item` for requests other than execute requests. */
    method Serve(item: QueueItem, service: S.Service)
      requires Valid() && Taken(item) && !item.inbound.kind.Execute?
      modifies this
      ensures Valid() && model == S.Handle(old(model), item.order, service)
    {
      AnswerStands(Value(), model, item, service);
      log := log + [Served(item.order)];
      model := S.Handle(model, item.order, service);
    }

    /** The arm for an execute request popped while an interrupt is in progress. */
    method InterruptExecute(item: QueueItem, service: S.Service)
      requires Valid() && Taken(item) && item.inbound.kind.Execute? && interrupting
      modifies this
      ensures Valid() && model == S.Handle(old(model), item.order, service)
    {
      AnswerStands(Value(), model, item, service);
      log := log + RefuseScript(item.order, "KeyboardInterrupt", executionCount);
      model := S.Handle(model, item.order, service);
    }

    /** The arm for an execute request without code. */
    method RefuseMissing(item: QueueItem, service: S.Service)
      requires Valid() && Taken(item) && item.inbound.kind.Execute? && !interrupting && !item.inbound.hasCode
      modifies this
      ensures Valid() && model == S.Handle(old(model), item.order, service)
    {
      RefuseStands(Value(), model, item, service);
      log := log + RefuseScript(item.order, "MissingField", executionCount);
      model := Refused(model, item.order);
      AbortPending();
    }

    /** The arm that starts a hold, whether or not another request is held. */
    method BeginHold(item: QueueItem, service: S.Service)
      requires Valid() && Taken(item) && item.inbound.kind.Execute? && !interrupting && item.inbound.hasCode && item.inbound.hold
      modifies this
      ensures Valid() && model == S.Handle(old(model), item.order, service)
    {
      HoldStands(Value(), model, item, service);
      log := log + OpenScript(item.order, item.inbound, executionCount);
      held := Some(item);
      model := S.Handle(model, item.order, service);
    }

    /** The arm that spawns an execution: count it, then start its task. */
    method Spawn(item: QueueItem, service: S.Service)
      requires Valid() && Taken(item) && item.inbound.kind.Execute? && !interrupting && item.inbound.hasCode && !item.inbound.hold
      modifies this
      ensures Valid() && model == S.Handle(old(model), item.order, service)
    {
      SpawnStands(Value(), model, item, service);
      var count := if item.inbound.storeHistory && !item.inbound.silent then executionCount + 1 else executionCount;
      executionCount := count;
      log := log + [Spawned(item.order, count)];
      active := Some(S.Active(item.order, count, S.Starting(OpenScript(item.order, item.inbound, count)), 0));
      model := S.Handle(model, item.order, service);
    }

    /** `handle_item` on an item that has been taken off the queue. Returns whether `run` ends. */
    method HandleItem(item: QueueItem, service: S.Service) returns (ends: bool)
      requires Valid() && Taken(item)
      modifies this
      ensures Valid() && model == S.Handle(old(model), item.order, service)
      ensures ends <==> item.inbound.kind.Shutdown? || (item.inbound.kind.Service? && service.Gone?)
    {
      ends := item.inbound.kind.Shutdown? || (item.inbound.kind.Service? && service.Gone?);
      if !item.inbound.kind.Execute? {
        Serve(item, service);
      } else if interrupting {
        InterruptExecute(item, service);
      } else if !item.inbound.hasCode {
        RefuseMissing(item, service);
      } else if item.inbound.hold {
        BeginHold(item, service);
      } else {
        Spawn(item, service);
      }
    }

    /** Lines 625 to 628 of `run`: pop and handle, or go and wait. */
    method PopAndHandle(service: S.Service)
      requires Valid()
      modifies this
      ensures S.InRange(old(model)) && Valid()
      ensures model == if S.Runnable(old(model)).Some? then S.Handle(old(model), S.Runnable(old(model)).value, service)
                       else old(model).(point := S.Select)
    {
      ghost var t := model;
      var item := TakeRunnable();
      if item.Some? {
        TakenOut(Value(), model, item.value, t, service);
        var _ := HandleItem(item.value, service);
      } else {
        model := t.(point := S.Select);
        FlagsStand(Value(), t, Value(), model);
      }
    }

    /** Lines 620 to 628 of `run`: stop, or pop and handle, or go and wait. */
    method Proceed(service: S.Service)
      requires Valid()
      modifies this
      ensures S.InRange(old(model)) && Valid() && model == S.Proceed(old(model), service)
    {
      ghost var t := model;
      IdleStands(Value(), t);
      if stopping && queue == [] && active.None? && held.None? {
        model := t.(point := S.Exited(S.Stopped));
        FlagsStand(Value(), t, Value(), model);
      } else {
        PopAndHandle(service);
      }
    }

    /** Line 619: forget an interrupt that no execution answers to any more. */
    method ForgetInterrupt()
      requires Valid() && (active.Some? ==> !S.Finished(active.value))
      modifies this
      ensures S.InRange(old(model)) && Valid() && model == S.Settle(old(model))
    {
      ghost var f, m := Value(), model;
      ActiveStands(f, m);
      if interrupting && active.None? { interrupting := false; }
      model := S.Settle(m);
      FlagsStand(f, m, Value(), model);
    }

    /** Lines 615 to 619 of `run`: take in a finished execution, then forget a spent interrupt.
        `stopOnError` is what the finished task returned. Returns whether `run` ends with its error. */
    method Settle(stopOnError: bool) returns (crashed: bool)
      requires Valid() && !model.point.Exited?
      requires active.Some? ==> active.value.n < |model.sent| && stopOnError == model.sent[active.value.n].stopOnError
      modifies this
      ensures S.InRange(old(model)) && Valid() && model == S.Settle(old(model)) && crashed == model.point.Exited?
    {
      ghost var f, m := Value(), model;
      ActiveStands(f, m);
      if active.Some? && S.Finished(active.value) {
        if active.value.phase.outcome == Broke(Closed) {
          model := m.(point := S.Exited(S.Crashed));
          FlagsStand(f, m, Value(), model);
          return true;
        }
        ExecutionDone(!active.value.phase.outcome.Returned?, stopOnError);
        CompleteSettles(m);
        ActiveStands(Value(), model);
      }
      ForgetInterrupt();
      crashed := false;
    }

    /** Lines 615 to 628 of `run`. */
    method Pass(service: S.Service, stopOnError: bool)
      requires Valid() && model.point.Check?
      requires active.Some? ==> active.value.n < |model.sent| && stopOnError == model.sent[active.value.n].stopOnError
      modifies this
      ensures S.InRange(old(model)) && Valid() && model == S.Next(old(model), S.Pass(service))
    {
      ghost var m := model;
      var crashed := Settle(stopOnError);
      PassSettles(m, service);
      if !crashed { Proceed(service); }
    }

    /** The head of `run`: read the request channel. */
    method TakeIncoming()
      requires Valid() && model.point.Head?
      modifies this
      ensures S.InRange(old(model)) && Valid() && model == S.Next(old(model), S.TakeIncoming)
    {
      ReadNothing(Value(), model);
      DrainIncoming();
      ghost var t := model;
      model := t.(point := S.Controls);
      FlagsStand(Value(), t, Value(), model);
    }

    /** The arm of `select!` for a request. */
    method WakeIncoming()
      requires Valid() && model.point.Select? && incoming != []
      modifies this
      ensures S.InRange(old(model)) && S.Enabled(old(model), S.WakeIncoming)
      ensures Valid() && model == S.Next(old(model), S.WakeIncoming)
    {
      ReadNothing(Value(), model);
      Enqueue();
      ghost var t := model;
      model := t.(point := S.Head);
      FlagsStand(Value(), t, Value(), model);
    }

    /** The arm of `select!` for a control. */
    method WakeControl()
      requires Valid() && model.point.Select? && controls != []
      modifies this
      ensures S.InRange(old(model)) && S.Enabled(old(model), S.WakeControl)
      ensures Valid() && model == S.Next(old(model), S.WakeControl)
    {
      ApplyControl();
      ghost var t := model;
      model := t.(point := S.Head);
      ReadNothing(Value(), t);
      FlagsStand(Value(), t, Value(), model);
    }

    /** The arm of `select!` for the end of the execution. Returns whether `run` ends with its error. */
    method WakeDone(stopOnError: bool) returns (crashed: bool)
      requires Valid() && model.point.Select? && active.Some? && S.Finished(active.value)
      requires active.value.n < |model.sent| && stopOnError == model.sent[active.value.n].stopOnError
      modifies this
      ensures S.InRange(old(model)) && S.Enabled(old(model), S.WakeDone)
      ensures Valid() && model == S.Next(old(model), S.WakeDone) && crashed == model.point.Exited?
    {
      ghost var f, m := Value(), model;
      ActiveStands(f, m);
      crashed := active.value.phase.outcome == Broke(Closed);
      if crashed {
        model := m.(point := S.Exited(S.Crashed));
        FlagsStand(f, m, Value(), model);
      } else {
        ExecutionDone(!active.value.phase.outcome.Returned?, stopOnError);
        ghost var t := model;
        model := t.(point := S.Head);
        ActiveStands(Value(), t);
        FlagsStand(Value(), t, Value(), model);
      }
    }

    /** The arm of `select!` for the hold's deadline. */
    method HoldTimeout()
      requires Valid() && model.point.Select? && held.Some?
      modifies this
      ensures S.InRange(old(model)) && S.Enabled(old(model), S.WakeTimeout)
      ensures Valid() && model == S.Next(old(model), S.WakeTimeout)
    {
      var _ := FinishHold("timeout");
      AbortPending();
      ghost var t := model;
      model := t.(point := S.Head);
      ReadNothing(Value(), t);
      FlagsStand(Value(), t, Value(), model);
    }
  }
}
