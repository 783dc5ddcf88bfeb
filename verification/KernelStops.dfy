/** Stopping shells: the kernel loop takes a shell out of the registry and a task of its own sends it
    an interrupt and a stop. */
module KernelStops {
  import opened Options
  import opened Messages
  import opened Scheduler
  import opened SchedulerInv
  import R = SchedulerRuns
  import K = Kernel
  import opened KernelRuns

  ghost predicate NoStop(s: Shell) { forall c | c in s.commands :: !c.Stop? }

  /** A shell is stopping only because it has applied a stop. */
  ghost predicate StopApplied(s: Shell) { s.stopping ==> exists j :: 0 <= j < s.applied <= |s.commands| && s.commands[j].Stop? }

  /** No registered shell has been told to stop, or is about to be. */
  ghost predicate Calm(k: K.Kernel)
    requires K.Rooted(k)
  {
    && (forall id | id in k.registry :: NoStop(k.instances[k.registry[id]].shell) && k.instances[k.registry[id]].owed == [])
    && (forall i | 0 <= i < |k.instances| :: StopApplied(k.instances[i].shell))
  }

  // ----- Registered shells

  lemma DispatchCalm(k: K.Kernel, id: string)
    requires K.Rooted(k) && Calm(k) && |k.fates| < |k.arrivals|
    ensures K.Rooted(K.Dispatch(k, id)) && Calm(K.Dispatch(k, id))
  {
    var t := K.Dispatch(k, id);
    forall i | 0 <= i < |t.instances| ensures StopApplied(t.instances[i].shell) {
      assert StopApplied(k.instances[i].shell);
      assert t.instances[i].shell.commands == k.instances[i].shell.commands;
    }
  }

  lemma CreateCalm(k: K.Kernel, id: string, ok: bool)
    requires K.Rooted(k) && Calm(k) && K.Create(k, id, ok).Some?
    ensures K.Rooted(K.Create(k, id, ok).value) && Calm(K.Create(k, id, ok).value)
  {
  }

  lemma RouteCalm(k: K.Kernel, ok: bool)
    requires K.Rooted(k) && Calm(k) && |k.fates| < |k.arrivals|
    ensures K.Rooted(K.Route(k, ok)) && Calm(K.Route(k, ok))
  {
    var m := k.arrivals[|k.fates|];
    var id := K.Target(k, m);
    if m.subshell != "" && id !in k.registry {
      if K.Create(k, id, ok).Some? {
        CreateCalm(k, id, ok);
        DispatchCalm(K.Create(k, id, ok).value, id);
      }
    } else {
      DispatchCalm(k, id);
    }
  }

  lemma {:induction false} FlushCalm(k: K.Kernel, oks: seq<bool>)
    requires K.Rooted(k) && Calm(k) && |oks| == |k.arrivals| - |k.fates|
    ensures Calm(K.Flush(k, oks))
    decreases |oks|
  {
    if oks != [] {
      K.RouteRooted(k, oks[0]);
      RouteCalm(k, oks[0]);
      FlushCalm(K.Route(k, oks[0]), oks[1..]);
    }
  }

  /** A control leaves what a shell has applied alone. */
  lemma CommandApplied(x: K.Instance, c: Control)
    requires StopApplied(x.shell)
    ensures StopApplied(K.Command(x, c).shell) && K.Command(x, c).owed == x.owed
    ensures NoStop(x.shell) && !c.Stop? ==> NoStop(K.Command(x, c).shell)
  {
    if x.shell.stopping {
      var j :| 0 <= j < x.shell.applied <= |x.shell.commands| && x.shell.commands[j].Stop?;
      assert K.Command(x, c).shell.commands[j].Stop?;
    }
  }

  /** A control other than a stop, to a registered shell. */
  lemma TellCalm(k: K.Kernel, id: string, c: Control, chore: K.Chore)
    requires K.Rooted(k) && Calm(k) && id in k.registry && !c.Stop?
    ensures Calm(K.Tell(k, id, c, chore))
  {
    var i := k.registry[id];
    CommandApplied(k.instances[i], c);
    OneCalm(k, i, K.Command(k.instances[i], c));
  }

  lemma StepStops(s: Shell, step: Step)
    requires InRange(s) && Enabled(s, step) && !step.Send? && !step.Command? && StopApplied(s)
    ensures StopApplied(Next(s, step))
  {
    StepReads(s, step);
    R.StepKeepsStopping(s, step);
  }

  lemma OneCalm(k: K.Kernel, i: nat, x: K.Instance)
    requires K.Rooted(k) && Calm(k) && i < |k.instances| && StopApplied(x.shell)
    requires K.Registered(k, i) ==> NoStop(x.shell) && x.owed == []
    ensures Calm(k.(instances := k.instances[i := x]))
  {
    var t := k.(instances := k.instances[i := x]);
    forall id | id in t.registry
      ensures NoStop(t.instances[t.registry[id]].shell) && t.instances[t.registry[id]].owed == []
    {
      assert K.Registered(k, k.registry[id]);
    }
  }

  lemma ArrangedCalm(k: K.Kernel, a: K.Act)
    requires Sound(k) && Calm(k) && K.Can(k, a) && K.Arranges(a)
    ensures K.Rooted(K.Arranged(k, a)) && Calm(K.Arranged(k, a))
  {
    ArrangedSound(k, a);
    if a.Open? {
      if K.Create(k, K.Name(a.requested, a.uuid), a.ok).Some? { CreateCalm(k, K.Name(a.requested, a.uuid), a.ok); }
    } else if a.CreateRequest? {
      if K.Create(k, K.Name(a.requested, a.uuid), a.ok).Some? { CreateCalm(k, K.Name(a.requested, a.uuid), a.ok); }
    } else {
      RegistryCalm(k, a);
    }
  }

  lemma CarriedCalm(k: K.Kernel, a: K.Act)
    requires Sound(k) && Calm(k) && K.Can(k, a) && K.Errand(a)
    ensures K.Rooted(K.Carried(k, a)) && Calm(K.Carried(k, a))
  {
    CarriedSound(k, a);
    match a {
      case SendInterrupt(id) =>
        TellCalm(k, id, Interrupt(|k.instances[k.registry[id]].shell.sent|), K.StillInterrupting(k.chore.left - {id}));
      case SendRelease(id) =>
        var i := k.registry[id];
        TellCalm(k, id, Release(k.chore.msgId, k.chore.status),
                 K.Awaiting(k.chore.left - {id}, k.chore.msgId, k.chore.status, i, |k.instances[i].shell.commands|));
      case Answered => RelabelCalm(k, K.Carried(k, a));
      case Lost => RelabelCalm(k, K.Carried(k, a));
    }
  }

  lemma ActCalm(k: K.Kernel, a: K.Act)
    requires Sound(k) && Calm(k) && K.Can(k, a)
    ensures K.Rooted(K.After(k, a)) && Calm(K.After(k, a))
  {
    ActSound(k, a);
    if K.Arranges(a) {
      ArrangedCalm(k, a);
    } else if K.Errand(a) {
      CarriedCalm(k, a);
    } else {
      match a {
        case RouteNext(ok) => RouteCalm(k, ok);
        case InterruptRequest(oks) => FlushCalm(k, oks);
        case ReleaseRequest(oks, _, _) => FlushCalm(k, oks);
        case Background(i) => BackgroundCalm(k, i);
        case ShellStep(i, step) =>
          StepStops(k.instances[i].shell, step);
          StepReads(k.instances[i].shell, step);
          OneCalm(k, i, k.instances[i].(shell := Next(k.instances[i].shell, step)));
        case _ =>
      }
    }
  }

  lemma BackgroundCalm(k: K.Kernel, i: nat)
    requires K.Rooted(k) && Calm(k) && i < |k.instances| && k.instances[i].owed != []
    ensures Calm(k.(instances := k.instances[i := K.Farewell(k.instances[i])]))
  {
    var x := k.instances[i];
    CommandApplied(x, if x.owed[0].OwesInterrupt? then Interrupt(|x.shell.sent|) else Stop);
    OneCalm(k, i, K.Farewell(x));
  }

  lemma RetireCalm(k: K.Kernel, id: string, interrupt: bool)
    requires K.Rooted(k) && Calm(k) && id in k.registry
    ensures K.Rooted(K.Retire(k, id, interrupt)) && Calm(K.Retire(k, id, interrupt))
  {
  }

  /** Calm does not depend on routes, arrivals or the end of the loop. */
  lemma RelabelCalm(k: K.Kernel, t: K.Kernel)
    requires K.Rooted(k) && Calm(k) && K.Rooted(t) && t.instances == k.instances
    requires forall id | id in t.registry :: id in k.registry && t.registry[id] == k.registry[id]
    ensures Calm(t)
  {
  }

  /** The steps that only take shells out of the registry. */
  lemma RegistryCalm(k: K.Kernel, a: K.Act)
    requires K.Rooted(k) && Calm(k) && K.Can(k, a)
    requires a.Close? || a.Delete? || a.Reap? || a.Finish? || a.Drain?
    ensures K.Rooted(K.Arranged(k, a)) && Calm(K.Arranged(k, a))
  {
    if a.Close? {
      CloseCalm(k, a.session, a.id, a.delete);
    } else if a.Delete? {
      var c := k.(routes := K.Unrouted(k.routes, a.id));
      RelabelCalm(k, c);
      if a.id in c.registry { RetireCalm(c, a.id, true); }
    } else if a.Drain? {
      RetireCalm(k, a.id, true);
    } else {
      RelabelCalm(k, K.Arranged(k, a));
    }
  }

  lemma CloseCalm(k: K.Kernel, session: string, id: string, delete: bool)
    requires K.Rooted(k) && Calm(k)
    ensures K.Rooted(K.Closed(k, session, id, delete)) && Calm(K.Closed(k, session, id, delete))
  {
    var c := k.(routes := k.routes - {session});
    RelabelCalm(k, c);
    if id in c.registry { RetireCalm(c, id, false); }
  }

  lemma {:induction false} RunCalm(k: K.Kernel, acts: seq<K.Act>)
    requires Sound(k) && Calm(k) && Runs(k, acts)
    ensures Sound(Final(k, acts)) && Calm(Final(k, acts))
    decreases |acts|
  {
    if acts != [] {
      ActSound(k, acts[0]);
      ActCalm(k, acts[0]);
      RunCalm(K.After(k, acts[0]), acts[1..]);
    }
  }

  // ----- Shells that were taken out with an interrupt

  ghost predicate Cut(s: Shell, j: nat) { exists l :: 0 <= l < j <= |s.commands| && s.commands[l] == Interrupt(|s.sent|) }

  /** Every stop this shell gets comes after an interrupt that covers all requests sent to it. */
  ghost predicate Leaving(x: K.Instance) {
    && (forall j | 0 <= j < |x.shell.commands| && x.shell.commands[j].Stop? :: Cut(x.shell, j))
    && (x.owed == [K.OwesInterrupt, K.OwesStop] || x.owed == [K.OwesStop] || x.owed == [])
    && (x.owed == [K.OwesStop] ==> x.shell.point.Exited? || Cut(x.shell, |x.shell.commands|))
  }

  lemma FarewellLeaves(x: K.Instance)
    requires Leaving(x) && x.owed != []
    ensures Leaving(K.Farewell(x)) && K.Farewell(x).shell.sent == x.shell.sent
  {
    var s, t := x.shell, K.Farewell(x).shell;
    forall j | 0 <= j < |t.commands| && t.commands[j].Stop?
      ensures Cut(t, j)
    {
      if j < |s.commands| {
        assert Cut(s, j);
        var l :| 0 <= l < j <= |s.commands| && s.commands[l] == Interrupt(|s.sent|);
        assert t.commands[l] == Interrupt(|t.sent|);
      } else {
        assert Cut(s, |s.commands|);
        var l :| 0 <= l < |s.commands| && s.commands[l] == Interrupt(|s.sent|);
        assert t.commands[l] == Interrupt(|t.sent|);
      }
    }
    if x.owed[0].OwesInterrupt? && !s.point.Exited? { assert t.commands[|s.commands|] == Interrupt(|t.sent|); }
  }

  lemma StepLeaves(x: K.Instance, step: Step)
    requires Leaving(x) && InRange(x.shell) && Enabled(x.shell, step) && !step.Send? && !step.Command?
    ensures Leaving(x.(shell := Next(x.shell, step)))
  {
    var s, t := x.shell, Next(x.shell, step);
    StepReads(s, step);
    assert !s.point.Exited?;
    forall j | 0 <= j <= |s.commands| && Cut(s, j)
      ensures Cut(t, j)
    {
      var l :| 0 <= l < j <= |s.commands| && s.commands[l] == Interrupt(|s.sent|);
      assert t.commands[l] == Interrupt(|t.sent|);
    }
  }

  lemma DispatchSpares(k: K.Kernel, id: string, i: nat)
    requires K.Rooted(k) && |k.fates| < |k.arrivals| && i < |k.instances| && !K.Registered(k, i)
    ensures var t := K.Dispatch(k, id); K.Rooted(t) && i < |t.instances| && t.instances[i] == k.instances[i] && !K.Registered(t, i)
  {
    assert id in k.registry ==> K.Registered(k, k.registry[id]);
  }

  lemma CreateSpares(k: K.Kernel, id: string, ok: bool, i: nat)
    requires K.Rooted(k) && i < |k.instances| && !K.Registered(k, i) && K.Create(k, id, ok).Some?
    ensures
      var t := K.Create(k, id, ok).value;
      K.Rooted(t) && i < |t.instances| && t.instances[i] == k.instances[i] && !K.Registered(t, i)
  {
  }

  lemma RouteSpares(k: K.Kernel, ok: bool, i: nat)
    requires K.Rooted(k) && |k.fates| < |k.arrivals| && i < |k.instances| && !K.Registered(k, i)
    ensures var t := K.Route(k, ok); K.Rooted(t) && i < |t.instances| && t.instances[i] == k.instances[i] && !K.Registered(t, i)
  {
    var m := k.arrivals[|k.fates|];
    var id := K.Target(k, m);
    if m.subshell != "" && id !in k.registry {
      if K.Create(k, id, ok).Some? {
        CreateSpares(k, id, ok, i);
        DispatchSpares(K.Create(k, id, ok).value, id, i);
      }
    } else {
      DispatchSpares(k, id, i);
    }
  }

  lemma {:induction false} FlushSpares(k: K.Kernel, oks: seq<bool>, i: nat)
    requires K.Rooted(k) && |oks| == |k.arrivals| - |k.fates| && i < |k.instances| && !K.Registered(k, i)
    ensures var t := K.Flush(k, oks); i < |t.instances| && t.instances[i] == k.instances[i] && !K.Registered(t, i)
    decreases |oks|
  {
    if oks != [] {
      K.RouteRooted(k, oks[0]);
      RouteSpares(k, oks[0], i);
      FlushSpares(K.Route(k, oks[0]), oks[1..], i);
    }
  }

  /** A shell that is not registered is touched only by itself and by the task that stops it. */
  lemma ActSpares(k: K.Kernel, a: K.Act, i: nat)
    requires Sound(k) && K.Can(k, a) && i < |k.instances| && !K.Registered(k, i)
    ensures i < |K.After(k, a).instances| && !K.Registered(K.After(k, a), i)
    ensures ((a.Background? || a.ShellStep?) && a.i == i) || K.After(k, a).instances[i] == k.instances[i]
  {
    if K.Arranges(a) {
      ArrangedSpares(k, a, i);
    } else if K.Errand(a) {
      CarriedSpares(k, a, i);
    } else {
      match a {
        case RouteNext(ok) => RouteSpares(k, ok, i);
        case InterruptRequest(oks) => FlushSpares(k, oks, i);
        case ReleaseRequest(oks, _, _) => FlushSpares(k, oks, i);
        case _ =>
      }
    }
  }

  lemma CarriedSpares(k: K.Kernel, a: K.Act, i: nat)
    requires Sound(k) && K.Can(k, a) && K.Errand(a) && i < |k.instances| && !K.Registered(k, i)
    ensures i < |K.Carried(k, a).instances| && !K.Registered(K.Carried(k, a), i) && K.Carried(k, a).instances[i] == k.instances[i]
  {
    if a.SendInterrupt? || a.SendRelease? { assert K.Registered(k, k.registry[a.id]); }
  }

  lemma ArrangedSpares(k: K.Kernel, a: K.Act, i: nat)
    requires Sound(k) && K.Can(k, a) && K.Arranges(a) && i < |k.instances| && !K.Registered(k, i)
    ensures i < |K.Arranged(k, a).instances| && !K.Registered(K.Arranged(k, a), i) && K.Arranged(k, a).instances[i] == k.instances[i]
  {
    if a.Open? || a.CreateRequest? {
      if K.Create(k, K.Name(a.requested, a.uuid), a.ok).Some? { CreateSpares(k, K.Name(a.requested, a.uuid), a.ok, i); }
    } else {
      var t := K.Arranged(k, a);
      forall id | id in t.registry
        ensures t.registry[id] != i
      {
        assert id in k.registry && t.registry[id] == k.registry[id];
        assert K.Registered(k, k.registry[id]);
      }
      if !a.Finish? { assert a.id in k.registry ==> K.Registered(k, k.registry[a.id]); }
    }
  }

  lemma ActLeaves(k: K.Kernel, a: K.Act, i: nat)
    requires Sound(k) && K.Can(k, a) && i < |k.instances| && !K.Registered(k, i) && Leaving(k.instances[i])
    ensures
      var t := K.After(k, a);
      && i < |t.instances| && !K.Registered(t, i) && Leaving(t.instances[i])
      && t.instances[i].shell.sent == k.instances[i].shell.sent
  {
    var x := k.instances[i];
    ActSpares(k, a, i);
    if a.Background? && a.i == i {
      FarewellLeaves(x);
    } else if a.ShellStep? && a.i == i {
      StepLeaves(x, a.step);
      StepReads(x.shell, a.step);
    }
  }

  lemma {:induction false} RunLeaves(k: K.Kernel, acts: seq<K.Act>, i: nat)
    requires Sound(k) && Runs(k, acts) && i < |k.instances| && !K.Registered(k, i) && Leaving(k.instances[i])
    ensures
      var t := Final(k, acts);
      i < |t.instances| && Leaving(t.instances[i]) && t.instances[i].shell.sent == k.instances[i].shell.sent
    decreases |acts|
  {
    if acts != [] {
      ActLeaves(k, acts[0], i);
      ActSound(k, acts[0]);
      RunLeaves(K.After(k, acts[0]), acts[1..], i);
    }
  }

  /** A shell that left by a stop after such an interrupt has read and answered everything. */
  lemma LeavingAnswers(x: K.Instance)
    requires R.Good(x.shell) && StopApplied(x.shell) && Leaving(x) && x.shell.point == Exited(Stopped)
    ensures x.shell.order == |x.shell.sent|
    ensures forall n: nat | IsExecute(x.shell, n) && n !in x.shell.displaced :: Replies(About(x.shell.log, n)) == 1
  {
    var s := x.shell;
    var j :| 0 <= j < s.applied <= |s.commands| && s.commands[j].Stop?;
    assert Cut(s, j);
    var l :| 0 <= l < j && s.commands[l] == Interrupt(|s.sent|);
    assert s.commands[l].cut <= s.fence;
    forall n: nat | IsExecute(s, n) && n !in s.displaced ensures Replies(About(s.log, n)) == 1 { R.PlaceReplies(s, n); }
  }

  lemma {:induction false} RunSpares(k: K.Kernel, acts: seq<K.Act>, i: nat)
    requires Sound(k) && Runs(k, acts) && i < |k.instances| && !K.Registered(k, i)
    ensures i < |Final(k, acts).instances| && Final(k, acts).instances[i].shell.sent == k.instances[i].shell.sent
    decreases |acts|
  {
    if acts != [] {
      var a := acts[0];
      ActSpares(k, a, i);
      if a.ShellStep? && a.i == i { StepReads(k.instances[i].shell, a.step); }
      ActSound(k, a);
      RunSpares(K.After(k, a), acts[1..], i);
    }
  }

  /** What a stopped shell has answered: exactly what it had read and no hold displaced. */
  lemma StoppedAnswers(s: Shell, n: nat)
    requires R.Good(s) && s.point == Exited(Stopped) && IsExecute(s, n)
    ensures Replies(About(s.log, n)) == 1 <==> n < s.order && n !in s.displaced
    ensures Replies(About(s.log, n)) <= 1
  {
    assert Transcribed(s, n);
    if n < s.order { R.PlaceReplies(s, n); }
    assert Replies([]) == 0;
  }

  lemma {:induction false} FlushKeepsPlace(k: K.Kernel, oks: seq<bool>, i: nat)
    requires K.Rooted(k) && |oks| == |k.arrivals| - |k.fates| && i < |k.instances|
    ensures
      var t := K.Flush(k, oks);
      i < |t.instances| && t.instances[i].shell.order == k.instances[i].shell.order
      && t.instances[i].shell.point == k.instances[i].shell.point
    decreases |oks|
  {
    if oks != [] {
      K.RouteRooted(k, oks[0]);
      RouteKeepsPlace(k, oks[0], i);
      FlushKeepsPlace(K.Route(k, oks[0]), oks[1..], i);
    }
  }

  lemma RouteKeepsPlace(k: K.Kernel, ok: bool, i: nat)
    requires K.Rooted(k) && |k.fates| < |k.arrivals| && i < |k.instances|
    ensures
      var t := K.Route(k, ok);
      i < |t.instances| && t.instances[i].shell.order == k.instances[i].shell.order
      && t.instances[i].shell.point == k.instances[i].shell.point
  {
  }

  /** Only its own steps move a shell on or let it read. */
  lemma OthersKeepPlace(k: K.Kernel, a: K.Act, i: nat)
    requires K.Rooted(k) && K.Can(k, a) && i < |k.instances| && !(a.ShellStep? && a.i == i)
    ensures
      var t := K.After(k, a);
      i < |t.instances| && t.instances[i].shell.order == k.instances[i].shell.order
      && t.instances[i].shell.point == k.instances[i].shell.point
  {
    if a.RouteNext? {
      RouteKeepsPlace(k, a.ok, i);
    } else if a.InterruptRequest? || a.ReleaseRequest? {
      FlushKeepsPlace(k, a.oks, i);
    } else if K.Arranges(a) {
      ArrangedKeepsPlace(k, a, i);
    } else if K.Errand(a) {
      CarriedKeepsPlace(k, a, i);
    }
  }

  lemma CarriedKeepsPlace(k: K.Kernel, a: K.Act, i: nat)
    requires K.Rooted(k) && K.Can(k, a) && K.Errand(a) && i < |k.instances|
    ensures
      var t := K.Carried(k, a);
      i < |t.instances| && t.instances[i].shell.order == k.instances[i].shell.order
      && t.instances[i].shell.point == k.instances[i].shell.point
  {
  }

  lemma ArrangedKeepsPlace(k: K.Kernel, a: K.Act, i: nat)
    requires K.Rooted(k) && K.Can(k, a) && K.Arranges(a) && i < |k.instances|
    ensures i < |K.Arranged(k, a).instances| && K.Arranged(k, a).instances[i].shell == k.instances[i].shell
  {
  }

  /** A request that is sure to be read stays so, whatever the kernel loop and the other shells do. */
  lemma {:induction false} RunReadsOn(k: K.Kernel, acts: seq<K.Act>, i: nat, n: nat)
    requires Sound(k) && Runs(k, acts) && i < |k.instances| && n < |k.instances[i].shell.sent|
    requires R.SureToRead(k.instances[i].shell, n)
    ensures i < |Final(k, acts).instances| && R.SureToRead(Final(k, acts).instances[i].shell, n)
    decreases |acts|
  {
    if acts != [] {
      var a := acts[0];
      ActSound(k, a);
      if a.ShellStep? && a.i == i {
        R.StepStaysSure(k.instances[i].shell, a.step, n);
      } else {
        OthersKeepPlace(k, a, i);
      }
      RunReadsOn(K.After(k, a), acts[1..], i, n);
    }
  }

  /** A message routed to a shell at the head of its loop or in `select!` is read before the shell stops,
      however it is stopped; and an execute request then has its one reply unless a hold displaced it. */
  lemma RoutedAtRestIsAnswered(k: K.Kernel, ok: bool, more: seq<K.Act>)
    requires Sound(k) && K.Can(k, K.RouteNext(ok)) && Runs(K.After(k, K.RouteNext(ok)), more)
    requires
      var t := K.After(k, K.RouteNext(ok));
      && |k.fates| < |t.fates| && t.fates[|k.fates|].Delivered? && t.fates[|k.fates|].shell < |t.instances|
      && var p := t.instances[t.fates[|k.fates|].shell].shell.point; p.Head? || p.Select?
    ensures
      var t := K.After(k, K.RouteNext(ok));
      var i, n := t.fates[|k.fates|].shell, t.fates[|k.fates|].at;
      i < |Final(t, more).instances| &&
      var s := Final(t, more).instances[i].shell;
      s.point == Exited(Stopped) ==> n < s.order && (IsExecute(s, n) && n !in s.displaced ==> Replies(About(s.log, n)) == 1)
  {
    var t := K.After(k, K.RouteNext(ok));
    ActSound(k, K.RouteNext(ok));
    FateIsPlace(t, |k.fates|);
    var i, n := t.fates[|k.fates|].shell, t.fates[|k.fates|].at;
    RunReadsOn(t, more, i, n);
    RunSound(t, more);
    var s := Final(t, more).instances[i].shell;
    if s.point == Exited(Stopped) && IsExecute(s, n) { StoppedAnswers(s, n); }
  }

  /** Closing a route with `delete` stops the shell without an interrupt. Take any run, such a step, and
      any run on from there. Nothing more is routed to the shell. Once it has stopped, exactly the
      execute requests that it had read and that no hold displaced have got their one reply; and it has
      read all of them if it was at the head of its loop or in `select!` when it was closed. */
  lemma ClosedShellAnswersWhatItRead(children: bool, acts: seq<K.Act>, a: K.Act, more: seq<K.Act>)
    requires Runs(K.Start(children), acts)
    requires
      var k := Reached(children, acts);
      && a.Close? && a.delete && K.Can(k, a) && a.session in k.routes && k.routes[a.session] == a.id
      && a.id in k.registry && Runs(K.After(k, a), more)
    ensures
      var k := Reached(children, acts);
      var t := Final(K.After(k, a), more);
      var i := k.registry[a.id];
      i < |t.instances| && t.instances[i].shell.sent == k.instances[i].shell.sent &&
      var p, s := k.instances[i].shell.point, t.instances[i].shell;
      s.point == Exited(Stopped) ==>
        && (forall n: nat | IsExecute(s, n) :: Replies(About(s.log, n)) == 1 <==> n < s.order && n !in s.displaced)
        && (p.Head? || p.Select? ==> s.order == |s.sent|)
  {
    CloseAnswers(Reached(children, acts), a, more);
  }

  lemma CloseAnswers(k: K.Kernel, a: K.Act, more: seq<K.Act>)
    requires Sound(k) && a.Close? && a.delete && K.Can(k, a) && a.session in k.routes && k.routes[a.session] == a.id
    requires a.id in k.registry && Runs(K.After(k, a), more)
    ensures
      var t := Final(K.After(k, a), more);
      var i := k.registry[a.id];
      i < |t.instances| && t.instances[i].shell.sent == k.instances[i].shell.sent &&
      var p, s := k.instances[i].shell.point, t.instances[i].shell;
      s.point == Exited(Stopped) ==>
        && (forall n: nat | IsExecute(s, n) :: Replies(About(s.log, n)) == 1 <==> n < s.order && n !in s.displaced)
        && (p.Head? || p.Select? ==> s.order == |s.sent|)
  {
    var i, u := k.registry[a.id], K.After(k, a);
    ActSound(k, a);
    ArrangedKeepsPlace(k, a, i);
    forall id | id in u.registry ensures u.registry[id] != i { assert id in k.registry && id != a.id; }
    RunSpares(u, more, i);
    RunSound(u, more);
    var p, s := k.instances[i].shell.point, Final(u, more).instances[i].shell;
    if s.point == Exited(Stopped) {
      forall n: nat | IsExecute(s, n) ensures Replies(About(s.log, n)) == 1 <==> n < s.order && n !in s.displaced {
        StoppedAnswers(s, n);
      }
      if (p.Head? || p.Select?) && s.sent != [] { RunReadsOn(u, more, i, |s.sent| - 1); }
    }
  }

  /** Deleting a subshell, or stopping what is left when the kernel loop returns, loses nothing. Take
      any run, such a step, and any run on from there: once the shell has stopped, it has read every
      request ever routed to it, and every execute request that no other hold displaced has got exactly one reply. */
  lemma RetiredShellAnswersAll(children: bool, acts: seq<K.Act>, a: K.Act, more: seq<K.Act>)
    requires Runs(K.Start(children), acts)
    requires
      var k := Reached(children, acts);
      (a.Delete? || a.Drain?) && K.Can(k, a) && a.id in k.registry && Runs(K.After(k, a), more)
    ensures
      var k := Reached(children, acts);
      var t := Final(K.After(k, a), more);
      var i := k.registry[a.id];
      i < |t.instances| && t.instances[i].shell.sent == k.instances[i].shell.sent &&
      var s := t.instances[i].shell;
      s.point == Exited(Stopped) ==>
        s.order == |s.sent| && forall n: nat | IsExecute(s, n) && n !in s.displaced :: Replies(About(s.log, n)) == 1
  {
    StartSound(children);
    StartCalm(children);
    RunCalm(K.Start(children), acts);
    RetireAnswers(Reached(children, acts), a, more);
  }

  lemma StartCalm(children: bool)
    ensures Calm(K.Start(children))
  {
  }

  lemma RetireAnswers(k: K.Kernel, a: K.Act, more: seq<K.Act>)
    requires Sound(k) && Calm(k) && (a.Delete? || a.Drain?) && K.Can(k, a) && a.id in k.registry && Runs(K.After(k, a), more)
    ensures
      var t := Final(K.After(k, a), more);
      var i := k.registry[a.id];
      i < |t.instances| && t.instances[i].shell.sent == k.instances[i].shell.sent &&
      var s := t.instances[i].shell;
      s.point == Exited(Stopped) ==>
        s.order == |s.sent| && forall n: nat | IsExecute(s, n) && n !in s.displaced :: Replies(About(s.log, n)) == 1
  {
    var i, u := k.registry[a.id], K.After(k, a);
    ActSound(k, a);
    ActCalm(k, a);
    assert !K.Registered(u, i) && Leaving(u.instances[i]) by {
      assert NoStop(k.instances[i].shell);
      forall id | id in u.registry ensures u.registry[id] != i { assert id in k.registry && id != a.id; }
    }
    RunLeaves(u, more, i);
    RunCalm(u, more);
    var x := Final(u, more).instances[i];
    if x.shell.point == Exited(Stopped) { LeavingAnswers(x); }
  }
}
