/** Which shell a message goes to, what the registry and the routes become, and when the loop ends, said
    of every step in terms of messages, ids and sessions alone. */
module KernelRouting {
  import opened Options
  import opened Messages
  import opened Scheduler
  import opened SchedulerRuns
  import K = Kernel
  import KR = KernelRuns

  // ----- Where a message goes

  /** The shell registered under `id` is there and running. */
  predicate Up(k: K.Kernel, id: string)
    requires K.Rooted(k)
  {
    id in k.registry && !k.instances[k.registry[id]].shell.point.Exited?
  }

  /** The fate of a message that goes to the shell registered under `id`. */
  predicate To(k: K.Kernel, id: string, fate: K.Fate)
    requires K.Rooted(k)
  {
    if Up(k, id) then fate == K.Delivered(k.registry[id], |k.instances[k.registry[id]].shell.sent|)
    else fate == K.Refused(K.NotFound)
  }

  /** `fate` is right for message `m` in kernel `k`. A message with a subshell id goes to that shell, which
      is created if it is not there and refused if it cannot be. An execute request without one goes where
      its session is routed, and everything else to the parent. */
  ghost predicate Right(k: K.Kernel, ok: bool, m: K.Inbound, fate: K.Fate)
    requires K.Rooted(k)
  {
    && (m.subshell != "" && m.subshell in k.registry ==> To(k, m.subshell, fate))
    && (m.subshell != "" && m.subshell !in k.registry ==>
          fate == if k.children && ok then K.Delivered(|k.instances|, 0) else K.Refused(K.CreationFailed))
    && (m.subshell == "" && m.request.kind.Execute? && m.session in k.routes ==> To(k, k.routes[m.session], fate))
    && (m.subshell == "" && !(m.request.kind.Execute? && m.session in k.routes) ==> To(k, "", fate))
  }

  lemma DispatchIsRight(k: K.Kernel, id: string)
    requires K.Rooted(k) && |k.fates| < |k.arrivals|
    ensures
      var t := K.Dispatch(k, id);
      |t.fates| == |k.fates| + 1 && t.fates[..|k.fates|] == k.fates && To(k, id, t.fates[|k.fates|]) && t.registry == k.registry
  {
  }

  lemma RouteIsRight(k: K.Kernel, ok: bool)
    requires K.Rooted(k) && |k.fates| < |k.arrivals|
    ensures
      var t, m := K.Route(k, ok), k.arrivals[|k.fates|];
      && |t.fates| == |k.fates| + 1 && t.fates[..|k.fates|] == k.fates && Right(k, ok, m, t.fates[|k.fates|])
      && (m.subshell != "" && m.subshell !in k.registry && k.children && ok ==> t.registry == k.registry[m.subshell := |k.instances|])
      && (m.subshell == "" || m.subshell in k.registry || !k.children || !ok ==> t.registry == k.registry)
  {
    var m := k.arrivals[|k.fates|];
    if m.subshell != "" && m.subshell !in k.registry {
      var c := K.Create(k, m.subshell, ok);
      if c.Some? { DispatchIsRight(c.value, m.subshell); }
    } else {
      DispatchIsRight(k, K.Target(k, m));
    }
  }

  /** A flush routes its messages one after another: message `g` is routed in the kernel that the ones
      before it have left. */
  lemma {:induction false} FlushIsRight(k: K.Kernel, oks: seq<bool>, g: nat)
    requires K.Rooted(k) && |oks| <= |k.arrivals| - |k.fates| && |k.fates| <= g < |k.fates| + |oks|
    ensures
      var n := g - |k.fates|;
      var at, t := K.Flush(k, oks[..n]), K.Flush(k, oks);
      |at.fates| == g && |t.fates| > g && Right(at, oks[n], k.arrivals[g], t.fates[g])
    decreases |oks|
  {
    K.RouteRooted(k, oks[0]);
    RouteIsRight(k, oks[0]);
    var u, n := K.Route(k, oks[0]), g - |k.fates|;
    if n == 0 {
      FlushKeepsFate(u, oks[1..], g);
      assert oks[..0] == [];
    } else {
      FlushIsRight(u, oks[1..], g);
      assert oks[..n][1..] == oks[1..][..n - 1] && oks[..n][0] == oks[0];
    }
  }

  lemma {:induction false} FlushKeepsFate(k: K.Kernel, oks: seq<bool>, g: nat)
    requires K.Rooted(k) && |oks| <= |k.arrivals| - |k.fates| && g < |k.fates|
    ensures K.Flush(k, oks).fates[g] == k.fates[g]
    decreases |oks|
  {
    if oks != [] {
      K.RouteRooted(k, oks[0]);
      RouteIsRight(k, oks[0]);
      assert K.Route(k, oks[0]).fates[..|k.fates|][g] == k.fates[g];
      FlushKeepsFate(K.Route(k, oks[0]), oks[1..], g);
    }
  }

  /** The kernel in which the step routes message `g`, and whether the language makes a child for it. */
  ghost function At(k: K.Kernel, a: K.Act, g: nat): (K.Kernel, bool)
    requires K.Rooted(k) && K.Can(k, a) && (a.RouteNext? || a.InterruptRequest? || a.ReleaseRequest?)
    requires |k.fates| <= g < if a.RouteNext? then |k.fates| + 1 else |k.arrivals|
  {
    if a.RouteNext? then (k, a.ok) else (K.Flush(k, a.oks[..g - |k.fates|]), a.oks[g - |k.fates|])
  }

  /** Only these steps route. */
  predicate RoutesSome(a: K.Act) { a.RouteNext? || a.InterruptRequest? || a.ReleaseRequest? }

  lemma OthersRouteNothing(k: K.Kernel, a: K.Act)
    requires K.Rooted(k) && K.Can(k, a) && !RoutesSome(a)
    ensures K.After(k, a).fates == k.fates
  {
  }

  lemma StepRoutesRight(k: K.Kernel, a: K.Act, g: nat)
    requires KR.Sound(k) && K.Can(k, a) && |k.fates| <= g < |K.After(k, a).fates|
    ensures RoutesSome(a) && g < if a.RouteNext? then |k.fates| + 1 else |k.arrivals|
    ensures
      var (at, ok) := At(k, a, g);
      K.Rooted(at) && |at.fates| == g && g < |k.arrivals| && Right(at, ok, k.arrivals[g], K.After(k, a).fates[g])
  {
    if !RoutesSome(a) {
      OthersRouteNothing(k, a);
    } else if a.RouteNext? {
      K.RouteRooted(k, a.ok);
      RouteIsRight(k, a.ok);
    } else {
      FlushIsRight(k, a.oks, g);
    }
  }

  /** Over every run, each routed message was routed by one step of the run, and went where it should from
      the kernel as it was then; and it stays there. */
  lemma RoutedToItsShell(children: bool, acts: seq<K.Act>, g: nat) returns (j: nat)
    requires KR.Runs(K.Start(children), acts) && g < |KR.Reached(children, acts).fates|
    ensures j < |acts| && KR.Runs(K.Start(children), acts[..j])
    ensures
      var k, u := KR.Reached(children, acts[..j]), KR.Reached(children, acts);
      && K.Can(k, acts[j]) && RoutesSome(acts[j])
      && |k.fates| <= g < (if acts[j].RouteNext? then |k.fates| + 1 else |k.arrivals|) && g < |u.arrivals|
      && var (at, ok) := At(k, acts[j], g);
         K.Rooted(at) && |at.fates| == g && Right(at, ok, u.arrivals[g], u.fates[g])
  {
    KR.StartSound(children);
    j := FindRouting(K.Start(children), acts, g);
    KR.RunSplit(K.Start(children), acts, j);
    var k := KR.Reached(children, acts[..j]);
    StepRoutesRight(k, acts[j], g);
    KR.ActSound(k, acts[j]);
    assert acts[j..][0] == acts[j];
    KR.RunSound(K.After(k, acts[j]), acts[j..][1..]);
    KR.FateStays(K.After(k, acts[j]), KR.Reached(children, acts), g);
    KR.RunSound(k, acts[j..]);
  }

  /** The step of a run after which message `g` is routed. */
  lemma {:induction false} FindRouting(k: K.Kernel, acts: seq<K.Act>, g: nat) returns (j: nat)
    requires KR.Sound(k) && KR.Runs(k, acts) && |k.fates| <= g < |KR.Final(k, acts).fates|
    ensures j < |acts| && KR.Runs(k, acts[..j]) && KR.Runs(KR.Final(k, acts[..j]), acts[j..])
    ensures
      var u := KR.Final(k, acts[..j]);
      K.Rooted(u) && K.Can(u, acts[j]) && |u.fates| <= g < |K.After(u, acts[j]).fates|
    decreases |acts|
  {
    var t := K.After(k, acts[0]);
    if g < |t.fates| {
      j := 0;
      assert acts[..0] == [] && acts[0..] == acts;
    } else {
      KR.ActSound(k, acts[0]);
      var i := FindRouting(t, acts[1..], g);
      j := i + 1;
      assert acts[..j][1..] == acts[1..][..i] && acts[..j][0] == acts[0];
      KR.RunSplit(k, acts, j);
    }
  }

  // ----- Registry, routes and the end of the loop

  /** The step takes `id` out of the registry. */
  predicate Unregisters(k: K.Kernel, a: K.Act, id: string) {
    || a == K.Delete(id) || a == K.Reap(id) || a == K.Drain(id)
    || (a.Close? && a.id == id && a.delete && a.session in k.routes && k.routes[a.session] == id)
  }

  /** The step asks for a shell `id` that is not there and can be made. */
  predicate Registers(k: K.Kernel, a: K.Act, id: string)
    requires |k.fates| <= |k.arrivals|
  {
    id != "" && id !in k.registry && k.children &&
    match a
    case Open(session, requested, uuid, ok) => ok && session !in k.routes && id == (if requested.Some? then requested.value else uuid)
    case CreateRequest(requested, uuid, ok) => ok && id == (if requested.Some? then requested.value else uuid)
    case RouteNext(ok) => ok && |k.fates| < |k.arrivals| && k.arrivals[|k.fates|].subshell == id
    case _ => false
  }

  lemma ArrangedRegistry(k: K.Kernel, a: K.Act, id: string)
    requires K.Rooted(k) && K.Can(k, a) && K.Arranges(a)
    ensures
      var t := K.Arranged(k, a);
      && (id in t.registry <==> (id in k.registry && !Unregisters(k, a, id)) || Registers(k, a, id))
      && (id in t.registry ==> t.registry[id] == if id in k.registry then k.registry[id] else |k.instances|)
  {
  }

  /** What is registered after a step, exactly, and that an id keeps its shell. A flush is a row of
      `RouteNext` steps. */
  lemma RegistryExactly(k: K.Kernel, a: K.Act, id: string)
    requires K.Rooted(k) && K.Can(k, a) && !a.InterruptRequest? && !a.ReleaseRequest?
    ensures
      var t := K.After(k, a);
      && (id in t.registry <==> (id in k.registry && !Unregisters(k, a, id)) || Registers(k, a, id))
      && (id in t.registry ==> t.registry[id] == if id in k.registry then k.registry[id] else |k.instances|)
  {
    if a.RouteNext? {
      RouteIsRight(k, a.ok);
    } else if K.Arranges(a) {
      ArrangedRegistry(k, a, id);
    }
  }

  /** Every session's route after a step, exactly: an open that succeeds adds it, a close of the session's
      own route removes it, and so does the end of its shell. */
  lemma RoutesExactly(k: K.Kernel, a: K.Act, session: string)
    requires K.Rooted(k) && K.Can(k, a)
    ensures
      var t := K.After(k, a);
      if a.Open? && a.session == session && session !in k.routes then
        var id := if a.requested.Some? then a.requested.value else a.uuid;
        if id != "" && k.children && (id in k.registry || a.ok)
        then session in t.routes && t.routes[session] == id && id in t.registry else session !in t.routes
      else if session !in k.routes then session !in t.routes
      else if (a.Close? && a.session == session && a.id == k.routes[session])
           || ((a.Delete? || a.Reap?) && a.id == k.routes[session] && a.id in k.registry)
      then session !in t.routes
      else session in t.routes && t.routes[session] == k.routes[session]
  {
    if !KR.Reroutes(a) { KR.OthersKeepRoutes(k, a); }
  }

  /** The loop ends at exactly these steps: from outside, when the parent or a failed shell is reaped, and
      when an interrupt or a release meets a shell that has returned. */
  lemma LoopEndsExactly(k: K.Kernel, a: K.Act)
    requires K.Rooted(k) && K.Can(k, a) && !k.over
    ensures
      K.After(k, a).over <==>
        || a.Finish?
        || (a.Reap? && (a.id == "" || k.instances[k.registry[a.id]].shell.point == Exited(Crashed)))
        || ((a.SendInterrupt? || a.SendRelease?) && k.instances[k.registry[a.id]].shell.point.Exited?)
        || a.Lost?
  {
    if a.RouteNext? { KR.RouteKeepsRoutes(k, a.ok); }
    if a.InterruptRequest? || a.ReleaseRequest? { KR.FlushKeepsRoutes(k, a.oks); }
  }

  /** An interrupt or release request routes everything that has arrived, and then has every registered
      shell to tell. */
  lemma RequestsFlushFirst(k: K.Kernel, a: K.Act)
    requires K.Rooted(k) && K.Can(k, a) && (a.InterruptRequest? || a.ReleaseRequest?)
    ensures
      var t := K.After(k, a);
      && |t.fates| == |k.arrivals| && t.arrivals == k.arrivals
      && (t.registry == map[] ==> t.chore.Free?)
      && (t.registry != map[] ==>
            t.chore == if a.InterruptRequest? then K.Interrupting(t.registry.Keys)
                       else K.Releasing(t.registry.Keys, a.msgId, a.status))
  {
    var f := K.Flush(k, a.oks);
    assert f.registry.Keys == {} <==> f.registry == map[];
  }

  /** A shell gets its messages in the order in which they arrived. */
  lemma RoutedInOrder(children: bool, acts: seq<K.Act>, i: nat, a: nat, b: nat)
    requires KR.Runs(K.Start(children), acts) && i < |KR.Reached(children, acts).instances|
    requires a < b < |KR.Reached(children, acts).instances[i].origins|
    ensures KR.Reached(children, acts).instances[i].origins[a] < KR.Reached(children, acts).instances[i].origins[b]
  {
    var k := KR.Reached(children, acts);
    assert KR.Ledger(k, i);
  }
}
