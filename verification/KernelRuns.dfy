/** What the kernel loop and its shells keep together, over whole runs. */
module KernelRuns {
  import opened Options
  import opened Messages
  import opened Scheduler
  import opened SchedulerInv
  import opened SchedulerRuns
  import K = Kernel

  // ----- Every message is delivered once or refused once

  /** Shell `i` holds exactly the messages delivered to it, in the order they were routed. */
  ghost predicate Ledger(k: K.Kernel, i: nat)
    requires i < |k.instances|
  {
    var x := k.instances[i];
    && |x.origins| == |x.shell.sent| && (forall a, b | 0 <= a < b < |x.origins| :: x.origins[a] < x.origins[b])
    && forall at | 0 <= at < |x.origins| ::
         && x.origins[at] < |k.fates| && k.fates[x.origins[at]] == K.Delivered(i, at)
         && x.origins[at] < |k.arrivals| && x.shell.sent[at] == k.arrivals[x.origins[at]].request
  }

  /** A delivered message is where its fate says. */
  ghost predicate Accounted(k: K.Kernel, g: nat)
    requires g < |k.fates| <= |k.arrivals|
  {
    match k.fates[g]
    case Delivered(i, at) => i < |k.instances| && at < |k.instances[i].origins| && k.instances[i].origins[at] == g
    case Refused(_) => true
  }

  ghost predicate Sound(k: K.Kernel) {
    && K.Rooted(k)
    && (forall i | 0 <= i < |k.instances| :: Ledger(k, i))
    && (forall g | 0 <= g < |k.fates| :: Accounted(k, g))
    && (forall i | 0 <= i < |k.instances| :: Good(k.instances[i].shell))
  }

  /** Later states only add messages, shells, deliveries and controls. */
  ghost predicate Grows(k: K.Kernel, t: K.Kernel) {
    && k.arrivals <= t.arrivals && k.fates <= t.fates && |k.instances| <= |t.instances|
    && forall i | 0 <= i < |k.instances| ::
         && k.instances[i].shell.sent <= t.instances[i].shell.sent
         && k.instances[i].shell.commands <= t.instances[i].shell.commands
         && k.instances[i].shell.applied <= t.instances[i].shell.applied
  }

  lemma StartSound(children: bool)
    ensures Sound(K.Start(children))
  {
    FreshGood();
  }

  lemma CreateSound(k: K.Kernel, id: string, ok: bool)
    requires Sound(k) && K.Create(k, id, ok).Some?
    ensures var t := K.Create(k, id, ok).value; Sound(t) && Grows(k, t) && t.arrivals == k.arrivals && t.fates == k.fates
  {
    FreshGood();
    var t := K.Create(k, id, ok).value;
    if t != k {
      forall i | 0 <= i < |t.instances| ensures Ledger(t, i) && Good(t.instances[i].shell) {
        if i < |k.instances| { assert Ledger(k, i) && t.instances[i] == k.instances[i]; }
      }
      forall g | 0 <= g < |t.fates| ensures Accounted(t, g) { assert Accounted(k, g); }
    }
  }

  lemma DeliverSound(k: K.Kernel, i: nat)
    requires Sound(k) && |k.fates| < |k.arrivals| && i < |k.instances| && !k.instances[i].shell.point.Exited?
    ensures Sound(K.Deliver(k, i)) && Grows(k, K.Deliver(k, i))
  {
    var t := K.Deliver(k, i);
    var r := k.arrivals[|k.fates|].request;
    StepGood(k.instances[i].shell, Send(r));
    assert t.instances[i].shell == Next(k.instances[i].shell, Send(r));
    forall j | 0 <= j < |t.instances| ensures Ledger(t, j) && Good(t.instances[j].shell) { assert Ledger(k, j); }
    forall g | 0 <= g < |t.fates| ensures Accounted(t, g) {
      if g < |k.fates| { assert Accounted(k, g); }
    }
  }

  lemma RefuseSound(k: K.Kernel, why: K.Refusal)
    requires Sound(k) && |k.fates| < |k.arrivals|
    ensures Sound(K.Refuse(k, why)) && Grows(k, K.Refuse(k, why))
  {
    var t := K.Refuse(k, why);
    forall j | 0 <= j < |t.instances| ensures Ledger(t, j) && Good(t.instances[j].shell) { assert Ledger(k, j); }
    forall g | 0 <= g < |t.fates| ensures Accounted(t, g) {
      if g < |k.fates| { assert Accounted(k, g); }
    }
  }

  lemma DispatchSound(k: K.Kernel, id: string)
    requires Sound(k) && |k.fates| < |k.arrivals|
    ensures Sound(K.Dispatch(k, id)) && Grows(k, K.Dispatch(k, id))
  {
    if id in k.registry && !k.instances[k.registry[id]].shell.point.Exited? {
      DeliverSound(k, k.registry[id]);
    } else {
      RefuseSound(k, K.NotFound);
    }
  }

  lemma GrowsOn(a: K.Kernel, b: K.Kernel, c: K.Kernel)
    requires Grows(a, b) && Grows(b, c)
    ensures Grows(a, c)
  {
    forall i | 0 <= i < |a.instances|
      ensures a.instances[i].shell.sent <= c.instances[i].shell.sent
      ensures a.instances[i].shell.commands <= c.instances[i].shell.commands
      ensures a.instances[i].shell.applied <= c.instances[i].shell.applied
    {
      assert a.instances[i].shell.sent <= b.instances[i].shell.sent <= c.instances[i].shell.sent;
      assert a.instances[i].shell.commands <= b.instances[i].shell.commands <= c.instances[i].shell.commands;
    }
  }

  lemma RouteSound(k: K.Kernel, ok: bool)
    requires Sound(k) && |k.fates| < |k.arrivals|
    ensures Sound(K.Route(k, ok)) && Grows(k, K.Route(k, ok))
  {
    var m := k.arrivals[|k.fates|];
    var id := K.Target(k, m);
    if m.subshell != "" && id !in k.registry {
      var c := K.Create(k, id, ok);
      if c.Some? {
        CreateSound(k, id, ok);
        DispatchSound(c.value, id);
        GrowsOn(k, c.value, K.Dispatch(c.value, id));
      } else {
        RefuseSound(k, K.CreationFailed);
      }
    } else {
      DispatchSound(k, id);
    }
  }

  lemma {:induction false} FlushSound(k: K.Kernel, oks: seq<bool>)
    requires Sound(k) && |oks| == |k.arrivals| - |k.fates|
    ensures Sound(K.Flush(k, oks)) && Grows(k, K.Flush(k, oks))
    decreases |oks|
  {
    if oks != [] {
      K.RouteRooted(k, oks[0]);
      RouteSound(k, oks[0]);
      FlushSound(K.Route(k, oks[0]), oks[1..]);
      GrowsOn(k, K.Route(k, oks[0]), K.Flush(k, oks));
    }
  }

  /** A control sent to a shell keeps the shell good. */
  lemma CommandGood(x: K.Instance, c: Control)
    requires Good(x.shell) && (c.Interrupt? ==> c.cut <= |x.shell.sent|)
    ensures
      var y := K.Command(x, c);
      Good(y.shell) && y.origins == x.origins && y.shell.sent == x.shell.sent && x.shell.commands <= y.shell.commands
      && y.shell.applied == x.shell.applied && y.shell.point == x.shell.point
  {
    if !x.shell.point.Exited? {
      StepGood(x.shell, Scheduler.Command(c));
      assert K.Command(x, c).shell == Next(x.shell, Scheduler.Command(c));
    }
  }

  /** A change that leaves messages and deliveries alone and keeps every shell good. */
  lemma Untouched(k: K.Kernel, t: K.Kernel)
    requires Sound(k) && K.Rooted(t) && t.arrivals == k.arrivals && t.fates == k.fates && |t.instances| == |k.instances|
    requires forall i | 0 <= i < |k.instances| ::
               && Good(t.instances[i].shell) && t.instances[i].origins == k.instances[i].origins
               && t.instances[i].shell.sent == k.instances[i].shell.sent
    ensures Sound(t)
  {
    forall i | 0 <= i < |t.instances| ensures Ledger(t, i) { assert Ledger(k, i); }
    forall g | 0 <= g < |t.fates| ensures Accounted(t, g) { assert Accounted(k, g); }
  }

  lemma RetireSound(k: K.Kernel, id: string, interrupt: bool)
    requires Sound(k) && id in k.registry
    ensures Sound(K.Retire(k, id, interrupt)) && Grows(k, K.Retire(k, id, interrupt))
  {
    Untouched(k, K.Retire(k, id, interrupt));
  }

  /** One shell is sent one control. */
  lemma ControlSound(k: K.Kernel, i: nat, c: Control, owed: seq<K.Debt>)
    requires Sound(k) && i < |k.instances| && (c.Interrupt? ==> c.cut <= |k.instances[i].shell.sent|)
    ensures var t := k.(instances := k.instances[i := K.Command(k.instances[i], c).(owed := owed)]); Sound(t) && Grows(k, t)
  {
    CommandGood(k.instances[i], c);
    Untouched(k, k.(instances := k.instances[i := K.Command(k.instances[i], c).(owed := owed)]));
  }

  lemma RelabelSound(k: K.Kernel, t: K.Kernel)
    requires Sound(k) && t == k.(registry := t.registry, routes := t.routes, minted := t.minted, over := t.over, chore := t.chore)
    requires forall id | id in t.registry :: id in k.registry && t.registry[id] == k.registry[id]
    ensures Sound(t) && Grows(k, t)
  {
    Untouched(k, t);
  }

  /** `t` has read at least as much of the same channels as `s`. */
  ghost predicate ReadsOn(s: Shell, t: Shell) {
    t.sent == s.sent && t.commands == s.commands && s.applied <= t.applied
  }

  lemma StepReads(s: Shell, step: Step)
    requires InRange(s) && Enabled(s, step) && !step.Send? && !step.Command?
    ensures ReadsOn(s, Next(s, step))
  {
  }

  lemma ShellStepSound(k: K.Kernel, i: nat, step: Step)
    requires Sound(k) && K.Can(k, K.ShellStep(i, step))
    ensures Sound(K.After(k, K.ShellStep(i, step))) && Grows(k, K.After(k, K.ShellStep(i, step)))
  {
    var t := K.After(k, K.ShellStep(i, step));
    var s := k.instances[i].shell;
    StepGood(s, step);
    StepReads(s, step);
    Untouched(k, t);
  }

  lemma ArrangedSound(k: K.Kernel, a: K.Act)
    requires Sound(k) && K.Can(k, a) && K.Arranges(a)
    ensures Sound(K.Arranged(k, a)) && Grows(k, K.Arranged(k, a))
  {
    match a {
      case Open(session, requested, uuid, ok) => OpenSound(k, session, K.Name(requested, uuid), ok, requested.None?);
      case Close(session, id, delete) => CloseSound(k, session, id, delete);
      case CreateRequest(requested, uuid, ok) =>
        var id := K.Name(requested, uuid);
        if id != "" && K.Create(k, id, ok).Some? { CreateSound(k, id, ok); }
      case Delete(id) =>
        if id in k.registry {
          RelabelSound(k, k.(routes := K.Unrouted(k.routes, id)));
          RetireSound(k.(routes := K.Unrouted(k.routes, id)), id, true);
        }
      case Drain(id) => RetireSound(k, id, true);
      case Reap(_) => RelabelSound(k, K.Arranged(k, a));
      case Finish => RelabelSound(k, K.Arranged(k, a));
    }
  }

  lemma CarriedSound(k: K.Kernel, a: K.Act)
    requires Sound(k) && K.Can(k, a) && K.Errand(a)
    ensures Sound(K.Carried(k, a)) && Grows(k, K.Carried(k, a))
  {
    match a {
      case SendInterrupt(id) =>
        TellSound(k, id, Interrupt(|k.instances[k.registry[id]].shell.sent|), K.StillInterrupting(k.chore.left - {id}));
      case SendRelease(id) =>
        var i := k.registry[id];
        TellSound(k, id, Release(k.chore.msgId, k.chore.status),
                  K.Awaiting(k.chore.left - {id}, k.chore.msgId, k.chore.status, i, |k.instances[i].shell.commands|));
      case Answered => RelabelSound(k, K.Carried(k, a));
      case Lost => RelabelSound(k, K.Carried(k, a));
    }
  }

  lemma ArriveSound(k: K.Kernel, m: K.Inbound)
    requires Sound(k)
    ensures var t := k.(arrivals := k.arrivals + [m]); Sound(t) && Grows(k, t)
  {
    var t := k.(arrivals := k.arrivals + [m]);
    forall i | 0 <= i < |t.instances| ensures Ledger(t, i) && Good(t.instances[i].shell) { assert Ledger(k, i); }
    forall g | 0 <= g < |t.fates| ensures Accounted(t, g) { assert Accounted(k, g); }
  }

  lemma ActSound(k: K.Kernel, a: K.Act)
    requires Sound(k) && K.Can(k, a)
    ensures Sound(K.After(k, a)) && Grows(k, K.After(k, a))
  {
    if K.Arranges(a) {
      ArrangedSound(k, a);
    } else if K.Errand(a) {
      CarriedSound(k, a);
    } else {
      match a {
        case Arrive(m) => ArriveSound(k, m);
        case RouteNext(ok) => RouteSound(k, ok);
        case Signal => RelabelSound(k, K.After(k, a));
        case InterruptRequest(oks) => FlushedSound(k, oks, K.After(k, a));
        case ReleaseRequest(oks, _, _) => FlushedSound(k, oks, K.After(k, a));
        case Background(i) => BackgroundSound(k, i);
        case ShellStep(i, step) => ShellStepSound(k, i, step);
        case _ =>
      }
    }
  }

  lemma FlushedSound(k: K.Kernel, oks: seq<bool>, t: K.Kernel)
    requires Sound(k) && |oks| == |k.arrivals| - |k.fates| && t == K.Flush(k, oks).(chore := t.chore)
    ensures Sound(t) && Grows(k, t)
  {
    FlushSound(k, oks);
    RelabelSound(K.Flush(k, oks), t);
    GrowsOn(k, K.Flush(k, oks), t);
  }

  /** One registered shell is sent one control. */
  lemma TellSound(k: K.Kernel, id: string, c: Control, chore: K.Chore)
    requires Sound(k) && id in k.registry
    requires c.Interrupt? ==> c.cut <= |k.instances[k.registry[id]].shell.sent|
    ensures Sound(K.Tell(k, id, c, chore)) && Grows(k, K.Tell(k, id, c, chore))
  {
    var x, t := k.instances[k.registry[id]], K.Tell(k, id, c, chore);
    if x.shell.point.Exited? {
      RelabelSound(k, t);
    } else {
      ControlSound(k, k.registry[id], c, x.owed);
      assert K.Command(x, c).(owed := x.owed) == K.Command(x, c);
      RelabelSound(t.(chore := k.chore), t);
      GrowsOn(k, t.(chore := k.chore), t);
    }
  }

  lemma BackgroundSound(k: K.Kernel, i: nat)
    requires Sound(k) && i < |k.instances| && k.instances[i].owed != []
    ensures var t := k.(instances := k.instances[i := K.Farewell(k.instances[i])]); Sound(t) && Grows(k, t)
  {
    var x := k.instances[i];
    ControlSound(k, i, if x.owed[0].OwesInterrupt? then Interrupt(|x.shell.sent|) else Stop, x.owed[1..]);
  }

  lemma OpenSound(k: K.Kernel, session: string, id: string, ok: bool, minted: bool)
    requires Sound(k)
    ensures Sound(K.Opened(k, session, id, ok, minted)) && Grows(k, K.Opened(k, session, id, ok, minted))
  {
    var t := K.Opened(k, session, id, ok, minted);
    if !(session in k.routes || id == "") && K.Create(k, id, ok).Some? {
      CreateSound(k, id, ok);
      RelabelSound(K.Create(k, id, ok).value, t);
      GrowsOn(k, K.Create(k, id, ok).value, t);
    }
  }

  lemma CloseSound(k: K.Kernel, session: string, id: string, delete: bool)
    requires Sound(k)
    ensures Sound(K.Closed(k, session, id, delete)) && Grows(k, K.Closed(k, session, id, delete))
  {
    if session in k.routes && k.routes[session] == id {
      var c := k.(routes := k.routes - {session});
      RelabelSound(k, c);
      if delete && id in c.registry { RetireSound(c, id, false); }
    }
  }

  // ----- Runs

  ghost predicate Runs(k: K.Kernel, acts: seq<K.Act>)
    decreases |acts|
  {
    K.Rooted(k) && (acts != [] ==> K.Can(k, acts[0]) && Runs(K.After(k, acts[0]), acts[1..]))
  }

  ghost function Final(k: K.Kernel, acts: seq<K.Act>): (t: K.Kernel)
    requires Runs(k, acts)
    decreases |acts|
  {
    if acts == [] then k else Final(K.After(k, acts[0]), acts[1..])
  }

  /** The first step of a run, and the rest. */
  lemma RunHead(k: K.Kernel, acts: seq<K.Act>, rest: seq<K.Act>)
    requires acts != [] && acts[1..] == rest && Runs(k, acts)
    ensures K.Rooted(k) && K.Can(k, acts[0]) && Runs(K.After(k, acts[0]), rest)
    ensures Final(k, acts) == Final(K.After(k, acts[0]), rest)
  {
  }

  lemma RunCons(k: K.Kernel, acts: seq<K.Act>, rest: seq<K.Act>)
    requires acts != [] && acts[1..] == rest && K.Rooted(k) && K.Can(k, acts[0]) && Runs(K.After(k, acts[0]), rest)
    ensures Runs(k, acts) && Final(k, acts) == Final(K.After(k, acts[0]), rest)
  {
  }

  /** A run up to step `j` and a run from there are one run. */
  lemma {:induction false} RunJoin(k: K.Kernel, acts: seq<K.Act>, j: nat)
    requires j <= |acts| && Runs(k, acts[..j]) && Runs(Final(k, acts[..j]), acts[j..])
    ensures Runs(k, acts) && Final(k, acts) == Final(Final(k, acts[..j]), acts[j..])
    decreases |acts|
  {
    if j == 0 {
      assert acts[..0] == [] && acts[0..] == acts;
    } else {
      var rest := acts[1..];
      assert acts[..j][0] == acts[0] && acts[..j][1..] == rest[..j - 1] && acts[j..] == rest[j - 1..];
      RunHead(k, acts[..j], rest[..j - 1]);
      RunJoin(K.After(k, acts[0]), rest, j - 1);
      RunCons(k, acts, rest);
    }
  }

  /** Two runs one after the other. */
  lemma RunOn(k: K.Kernel, a: seq<K.Act>, b: seq<K.Act>)
    requires Runs(k, a) && Runs(Final(k, a), b)
    ensures Runs(k, a + b) && Final(k, a + b) == Final(Final(k, a), b)
  {
    assert (a + b)[..|a|] == a && (a + b)[|a|..] == b;
    RunJoin(k, a + b, |a|);
  }

  /** A run is a run up to its step `j`, and one from there. */
  lemma {:induction false} RunSplit(k: K.Kernel, acts: seq<K.Act>, j: nat)
    requires Runs(k, acts) && j <= |acts|
    ensures Runs(k, acts[..j]) && Runs(Final(k, acts[..j]), acts[j..]) && Final(Final(k, acts[..j]), acts[j..]) == Final(k, acts)
    decreases |acts|
  {
    if j == 0 {
      assert acts[..0] == [] && acts[0..] == acts;
    } else {
      RunSplit(K.After(k, acts[0]), acts[1..], j - 1);
      assert acts[..j][1..] == acts[1..][..j - 1] && acts[j..] == acts[1..][j - 1..];
    }
  }

  lemma {:induction false} RunSound(k: K.Kernel, acts: seq<K.Act>)
    requires Sound(k) && Runs(k, acts)
    ensures Sound(Final(k, acts)) && Grows(k, Final(k, acts))
    decreases |acts|
  {
    if acts != [] {
      ActSound(k, acts[0]);
      RunSound(K.After(k, acts[0]), acts[1..]);
      GrowsOn(k, K.After(k, acts[0]), Final(k, acts));
    }
  }

  /** The state a run from the start ends in. */
  ghost function Reached(children: bool, acts: seq<K.Act>): (k: K.Kernel)
    requires Runs(K.Start(children), acts)
    ensures Sound(k)
  {
    StartSound(children);
    RunSound(K.Start(children), acts);
    Final(K.Start(children), acts)
  }

  /** A message is where its fate says and nowhere else. */
  lemma FateIsPlace(k: K.Kernel, g: nat)
    requires Sound(k) && g < |k.fates|
    ensures
      match k.fates[g]
      case Refused(_) =>
        forall i, at | 0 <= i < |k.instances| && 0 <= at < |k.instances[i].origins| :: k.instances[i].origins[at] != g
      case Delivered(i, at) =>
        && i < |k.instances| && at < |k.instances[i].shell.sent| && k.instances[i].shell.sent[at] == k.arrivals[g].request
        && (forall j, b | 0 <= j < |k.instances| && 0 <= b < |k.instances[j].origins| && k.instances[j].origins[b] == g ::
              j == i && b == at)
  {
    assert Accounted(k, g);
    forall j, b | 0 <= j < |k.instances| && 0 <= b < |k.instances[j].origins| && k.instances[j].origins[b] == g
      ensures k.fates[g] == K.Delivered(j, b)
    {
      assert Ledger(k, j);
    }
    if k.fates[g].Delivered? { assert Ledger(k, k.fates[g].shell); }
  }

  // ----- Interrupts across both loops

  /** A `SendInterrupt` that finds the shell running leaves an interrupt at the end of its controls that
      stands behind everything routed to it so far. */
  lemma InterruptStandsBehind(k: K.Kernel, id: string)
    requires Sound(k) && K.Can(k, K.SendInterrupt(id)) && !k.instances[k.registry[id]].shell.point.Exited?
    ensures
      var t := K.After(k, K.SendInterrupt(id));
      var s := t.instances[k.registry[id]].shell;
      && s.commands == k.instances[k.registry[id]].shell.commands + [Interrupt(|s.sent|)]
      && s.sent == k.instances[k.registry[id]].shell.sent && t.fates == k.fates && t.arrivals == k.arrivals
  {
  }

  /** Interrupt is a clean cut across both loops. Take an `interrupt_request`, any run on to the step
      that sends shell `i` its interrupt and finds it running, and any run on from there in which the
      shell has applied that interrupt. Every execute request that had arrived at the kernel with the
      `interrupt_request` and went to shell `i` has been answered, or is a displaced hold, or is running
      and has been sent an interrupt request. It is neither queued nor held, so it does not start later. */
  lemma InterruptRequestIsACleanCut(k: K.Kernel, oks: seq<bool>, before: seq<K.Act>, id: string, later: seq<K.Act>, g: nat)
    requires Sound(k) && K.Can(k, K.InterruptRequest(oks)) && Runs(K.After(k, K.InterruptRequest(oks)), before)
    requires g < |k.arrivals| && k.arrivals[g].request.kind.Execute?
    requires
      var t := K.After(k, K.InterruptRequest(oks));
      var u := Final(t, before);
      && K.Rooted(u) && K.Can(u, K.SendInterrupt(id)) && !u.instances[u.registry[id]].shell.point.Exited?
      && g < |t.fates| && t.fates[g].Delivered? && t.fates[g].shell == u.registry[id]
      && Runs(K.After(u, K.SendInterrupt(id)), later)
      && var v := Final(K.After(u, K.SendInterrupt(id)), later);
         u.registry[id] < |v.instances| && |u.instances[u.registry[id]].shell.commands| < v.instances[u.registry[id]].shell.applied
    ensures
      var t := K.After(k, K.InterruptRequest(oks));
      var u := Final(t, before);
      var s := Final(K.After(u, K.SendInterrupt(id)), later).instances[u.registry[id]].shell;
      var n := t.fates[g].at;
      && |t.fates| == |k.arrivals| && IsExecute(s, n) && s.sent[n] == k.arrivals[g].request
      && n < s.order && n !in s.queue && s.held != Some(n)
      && (Answered(s, n) || n in s.displaced || (IsActive(s, n) && s.active.value.interrupts > 0))
  {
    var t := K.After(k, K.InterruptRequest(oks));
    ActSound(k, K.InterruptRequest(oks));
    RunSound(t, before);
    var u := Final(t, before);
    FateStays(t, u, g);
    ReachedIsCut(u, id, later, g);
  }

  /** A fate and the arrival it is about stay. */
  lemma FateStays(t: K.Kernel, u: K.Kernel, g: nat)
    requires Sound(t) && Grows(t, u) && Sound(u) && g < |t.fates|
    ensures g < |u.fates| && u.fates[g] == t.fates[g] && u.arrivals[g] == t.arrivals[g]
  {
  }

  lemma ReachedIsCut(u: K.Kernel, id: string, later: seq<K.Act>, g: nat)
    requires Sound(u) && K.Can(u, K.SendInterrupt(id)) && !u.instances[u.registry[id]].shell.point.Exited?
    requires g < |u.fates| && u.fates[g].Delivered? && u.fates[g].shell == u.registry[id] && u.arrivals[g].request.kind.Execute?
    requires Runs(K.After(u, K.SendInterrupt(id)), later)
    requires
      var v := Final(K.After(u, K.SendInterrupt(id)), later);
      u.registry[id] < |v.instances| && |u.instances[u.registry[id]].shell.commands| < v.instances[u.registry[id]].shell.applied
    ensures
      var s := Final(K.After(u, K.SendInterrupt(id)), later).instances[u.registry[id]].shell;
      var n := u.fates[g].at;
      && IsExecute(s, n) && s.sent[n] == u.arrivals[g].request
      && n < s.order && n !in s.queue && s.held != Some(n)
      && (Answered(s, n) || n in s.displaced || (IsActive(s, n) && s.active.value.interrupts > 0))
  {
    var i, w := u.registry[id], K.After(u, K.SendInterrupt(id));
    FateIsPlace(u, g);
    InterruptStandsBehind(u, id);
    ActSound(u, K.SendInterrupt(id));
    RunSound(w, later);
    var s, j := Final(w, later).instances[i].shell, |u.instances[i].shell.commands|;
    assert w.instances[i].shell.commands[j] == Interrupt(|w.instances[i].shell.sent|);
    CutByFence(s, j, u.fates[g].at);
  }

  /** The shell's side of the cut. */
  lemma CutByFence(s: Shell, j: nat, n: nat)
    requires Good(s) && j < s.applied && s.commands[j].Interrupt? && n < s.commands[j].cut && IsExecute(s, n)
    ensures n < s.order && n !in s.queue && s.held != Some(n)
    ensures Answered(s, n) || n in s.displaced || (IsActive(s, n) && s.active.value.interrupts > 0)
  {
    assert s.commands[j].cut <= s.fence;
    PlaceReplies(s, n);
  }

  // ----- Routes

  /** Every route override names a registered shell that is not the parent. */
  ghost predicate RoutesLive(k: K.Kernel) {
    forall s | s in k.routes :: k.routes[s] != "" && k.routes[s] in k.registry
  }

  /** The step deletes a shell that another session still routes to. */
  ghost predicate Orphans(k: K.Kernel, a: K.Act) {
    a.Close? && a.delete && a.session in k.routes && k.routes[a.session] == a.id
    && exists s :: s in k.routes && s != a.session && k.routes[s] == a.id
  }

  lemma RouteKeepsRoutes(k: K.Kernel, ok: bool)
    requires K.Rooted(k) && |k.fates| < |k.arrivals|
    ensures
      var t := K.Route(k, ok);
      && t.routes == k.routes && t.minted == k.minted && t.over == k.over
      && (forall id | id in k.registry :: id in t.registry) && ("" in t.registry ==> "" in k.registry)
  {
  }

  lemma {:induction false} FlushKeepsRoutes(k: K.Kernel, oks: seq<bool>)
    requires K.Rooted(k) && |oks| == |k.arrivals| - |k.fates|
    ensures
      var t := K.Flush(k, oks);
      && t.routes == k.routes && t.minted == k.minted && t.over == k.over
      && (forall id | id in k.registry :: id in t.registry) && ("" in t.registry ==> "" in k.registry)
    decreases |oks|
  {
    if oks != [] {
      K.RouteRooted(k, oks[0]);
      RouteKeepsRoutes(k, oks[0]);
      FlushKeepsRoutes(K.Route(k, oks[0]), oks[1..]);
    }
  }

  /** The steps other than these keep the routes, the minted ids and what is registered. */
  predicate Reroutes(a: K.Act) { a.Open? || a.Close? || a.Delete? || a.Reap? || a.Drain? }

  lemma OthersKeepRoutes(k: K.Kernel, a: K.Act)
    requires K.Rooted(k) && K.Can(k, a) && !Reroutes(a)
    ensures
      var t := K.After(k, a);
      && t.routes == k.routes && t.minted == k.minted
      && (forall id | id in k.registry :: id in t.registry) && ("" in t.registry ==> "" in k.registry)
  {
    match a {
      case RouteNext(ok) => RouteKeepsRoutes(k, ok);
      case InterruptRequest(oks) => FlushKeepsRoutes(k, oks);
      case ReleaseRequest(oks, _, _) => FlushKeepsRoutes(k, oks);
      case _ =>
    }
  }

  lemma CloseKeepsRoutesLive(k: K.Kernel, session: string, id: string, delete: bool)
    requires K.Rooted(k) && RoutesLive(k)
    ensures RoutesLive(K.Closed(k, session, id, delete)) <==> !Orphans(k, K.Close(session, id, delete))
  {
    var t := K.Closed(k, session, id, delete);
    if Orphans(k, K.Close(session, id, delete)) {
      var s :| s in k.routes && s != session && k.routes[s] == id;
      assert s in t.routes && t.routes[s] == id && id !in t.registry;
    }
  }

  /** While the loop runs, routes stay live exactly when the step orphans none. */
  lemma RoutesStayLive(k: K.Kernel, a: K.Act)
    requires Sound(k) && !k.over && K.Can(k, a) && RoutesLive(k)
    ensures RoutesLive(K.After(k, a)) <==> !Orphans(k, a)
  {
    if !Reroutes(a) {
      OthersKeepRoutes(k, a);
    } else if a.Close? {
      CloseKeepsRoutesLive(k, a.session, a.id, a.delete);
    }
  }

  /** An orphaned session's plain execute requests are refused, although its route was opened. */
  lemma OrphanIsRefused(k: K.Kernel, a: K.Act, s: string, ok: bool)
    requires Sound(k) && K.Can(k, a) && RoutesLive(k) && Orphans(k, a) && s in k.routes && s != a.session && k.routes[s] == a.id
    requires |k.fates| < |k.arrivals|
    requires var m := k.arrivals[|k.fates|]; m.subshell == "" && m.session == s && m.request.kind.Execute?
    ensures
      var t := K.Route(K.After(k, a), ok);
      t.fates[|k.fates|] == K.Refused(K.NotFound)
  {
    ActSound(k, a);
  }

  /** No route override names the parent. */
  ghost predicate ParentUnrouted(k: K.Kernel) { forall s | s in k.routes :: k.routes[s] != "" }

  /** The steps that take the parent out of the registry. */
  predicate Unparents(a: K.Act) { a == K.Delete("") || a == K.Reap("") || a == K.Drain("") }

  lemma ParentStep(k: K.Kernel, a: K.Act)
    requires K.Rooted(k) && K.Can(k, a) && ParentUnrouted(k)
    ensures ParentUnrouted(K.After(k, a))
    ensures "" in K.After(k, a).registry <==> "" in k.registry && !Unparents(a)
  {
    if !Reroutes(a) { OthersKeepRoutes(k, a); }
  }

  lemma {:induction false} ParentRun(k: K.Kernel, acts: seq<K.Act>)
    requires Sound(k) && Runs(k, acts) && ParentUnrouted(k)
    ensures "" in Final(k, acts).registry <==> "" in k.registry && forall a | a in acts :: !Unparents(a)
    decreases |acts|
  {
    if acts != [] {
      ActSound(k, acts[0]);
      ParentStep(k, acts[0]);
      ParentRun(K.After(k, acts[0]), acts[1..]);
      assert forall a :: a in acts <==> a == acts[0] || a in acts[1..];
    }
  }

  /** Over every run the parent is registered exactly as long as no delete has named the empty id, the
      parent has not been reaped, and it has not been stopped after the loop. */
  lemma ParentStays(children: bool, acts: seq<K.Act>)
    requires Runs(K.Start(children), acts)
    ensures "" in Reached(children, acts).registry <==> forall a | a in acts :: !Unparents(a)
  {
    StartSound(children);
    ParentRun(K.Start(children), acts);
  }

  /** The steps that `subshell()` and `sidecar()` make: a fresh id that is deleted when it is
      closed, or the shared id that is never deleted. */
  predicate Polite(k: K.Kernel, a: K.Act) {
    && (a.Open? ==> a.requested == None || a.requested == Some("sidecar"))
    && (a.Close? && a.delete ==> a.id in k.minted)
  }

  /** Minted ids have one session each. */
  ghost predicate Private(k: K.Kernel) {
    "sidecar" !in k.minted &&
    forall a, b | a in k.routes && b in k.routes && a != b && k.routes[a] == k.routes[b] :: k.routes[a] !in k.minted
  }

  lemma OpenStaysPrivate(k: K.Kernel, a: K.Act)
    requires K.Rooted(k) && K.Can(k, a) && Private(k) && Polite(k, a) && a.Open?
    ensures Private(K.After(k, a))
  {
    var t := K.After(k, a);
    forall x, y | x in t.routes && y in t.routes && x != y && t.routes[x] == t.routes[y]
      ensures t.routes[x] !in t.minted
    {
      assert x in k.routes ==> k.routes[x] in k.routes.Values;
      assert y in k.routes ==> k.routes[y] in k.routes.Values;
    }
  }

  lemma PoliteStaysPrivate(k: K.Kernel, a: K.Act)
    requires Sound(k) && K.Can(k, a) && Private(k) && Polite(k, a)
    ensures Private(K.After(k, a)) && !Orphans(k, a)
  {
    if !Reroutes(a) {
      OthersKeepRoutes(k, a);
    } else if a.Open? {
      OpenStaysPrivate(k, a);
    }
  }

  /** All steps of the run are polite. */
  ghost predicate AllPolite(k: K.Kernel, acts: seq<K.Act>)
    requires Runs(k, acts)
    decreases |acts|
  {
    acts == [] || (Polite(k, acts[0]) && AllPolite(K.After(k, acts[0]), acts[1..]))
  }

  lemma {:induction false} PoliteRun(k: K.Kernel, acts: seq<K.Act>)
    requires Sound(k) && Private(k) && (k.over || RoutesLive(k)) && Runs(k, acts) && AllPolite(k, acts)
    ensures Private(Final(k, acts)) && (Final(k, acts).over || RoutesLive(Final(k, acts)))
    decreases |acts|
  {
    if acts != [] {
      ActSound(k, acts[0]);
      PoliteStaysPrivate(k, acts[0]);
      if !k.over { RoutesStayLive(k, acts[0]); }
      PoliteRun(K.After(k, acts[0]), acts[1..]);
    }
  }

  /** Over every run in which sessions route through `subshell()` and `sidecar()` only, every route
      override names a registered shell other than the parent, as long as the loop runs. */
  lemma RoutesNameLiveShells(children: bool, acts: seq<K.Act>)
    requires Runs(K.Start(children), acts) && AllPolite(K.Start(children), acts)
    ensures !Reached(children, acts).over ==> RoutesLive(Reached(children, acts))
  {
    StartSound(children);
    PoliteRun(K.Start(children), acts);
  }
}
