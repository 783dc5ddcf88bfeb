/** Where the kernel loop falls short, each with a run from its start, and when exactly it does not. */
module KernelFailures {
  import opened Options
  import opened Messages
  import opened Scheduler
  import opened SchedulerProgress
  import R = SchedulerRuns
  import K = Kernel
  import opened KernelRuns
  import opened KernelErrands

  // ----- Building runs

  /** The states that runs from the start of a kernel with subshells end in. */
  ghost function Reachable(): iset<K.Kernel> {
    iset k | Sound(k) && exists acts :: Runs(K.Start(true), acts) && Final(K.Start(true), acts) == k
  }

  lemma StartReachable()
    ensures K.Start(true) in Reachable()
  {
    StartSound(true);
    assert Runs(K.Start(true), []) && Final(K.Start(true), []) == K.Start(true);
  }

  /** The step leads from `k` to `t`. */
  ghost predicate Leads(k: K.Kernel, a: K.Act, t: K.Kernel) { K.Rooted(k) && K.Can(k, a) && K.After(k, a) == t }

  /** A run goes on by one step. */
  lemma StepOn(k: K.Kernel, a: K.Act, t: K.Kernel)
    requires k in Reachable() && Leads(k, a, t)
    ensures t in Reachable()
  {
    var acts :| Runs(K.Start(true), acts) && Final(K.Start(true), acts) == k;
    ActSound(k, a);
    assert [a][1..] == [] && Runs(t, []);
    RunOn(K.Start(true), acts, [a]);
  }

  function WithShell(k: K.Kernel, i: nat, s: Shell): K.Kernel
    requires i < |k.instances|
  {
    k.(instances := k.instances[i := k.instances[i].(shell := s)])
  }

  lemma WithShellTwice(k: K.Kernel, i: nat, s: Shell, t: Shell)
    requires i < |k.instances|
    ensures WithShell(WithShell(k, i, s), i, t) == WithShell(k, i, t) && WithShell(k, i, s).instances[i].shell == s
    ensures WithShell(k, i, k.instances[i].shell) == k
  {
  }

  /** The second of two instances changes. */
  lemma Second(x: K.Instance, y: K.Instance, z: K.Instance)
    ensures [x, y][1 := z] == [x, z]
  {
  }

  /** The first request that is sent to a shell. */
  lemma FirstSent(s: Shell, r: Request)
    requires s.sent == []
    ensures s.(sent := s.sent + [r]) == s.(sent := [r])
  {
    assert [] + [r] == [r];
  }

  lemma ShellLeads(k: K.Kernel, i: nat, a: Step)
    requires Sound(k) && i < |k.instances| && InRange(k.instances[i].shell) && Enabled(k.instances[i].shell, a) && Internal(a)
    ensures Leads(k, K.ShellStep(i, a), WithShell(k, i, Next(k.instances[i].shell, a)))
  {
  }

  lemma ShellStepOn(k: K.Kernel, i: nat, a: Step)
    requires k in Reachable() && i < |k.instances| && InRange(k.instances[i].shell)
    requires Enabled(k.instances[i].shell, a) && Internal(a)
    ensures WithShell(k, i, Next(k.instances[i].shell, a)) in Reachable()
  {
    ShellLeads(k, i, a);
    StepOn(k, K.ShellStep(i, a), WithShell(k, i, Next(k.instances[i].shell, a)));
  }

  /** A run of one shell's own steps is a run of the kernel. */
  lemma {:induction false} ShellRun(k: K.Kernel, i: nat, s: Shell, steps: seq<Step>)
    requires i < |k.instances| && WithShell(k, i, s) in Reachable()
    requires R.Runs(s, steps) && forall a | a in steps :: Internal(a)
    ensures WithShell(k, i, R.Final(s, steps)) in Reachable()
    decreases |steps|
  {
    if steps != [] {
      assert steps[0] in steps;
      WithShellTwice(k, i, s, Next(s, steps[0]));
      ShellStepOn(WithShell(k, i, s), i, steps[0]);
      ShellRun(k, i, Next(s, steps[0]), steps[1..]);
    }
  }

  // ----- Interrupts and releases that meet a shell that returns

  const ShutdownMessage: K.Inbound :=
    K.Inbound(Request("", Shutdown, 0.0, false, false, false, true, true), "child", "", true)

  /** A kernel with its parent shell and a child, before and after the child is asked to shut down. */
  function Pair(): K.Kernel {
    K.Start(true).(registry := map["" := 0, "child" := 1], instances := [K.Newborn, K.Newborn])
  }

  function AskedPair(): K.Kernel {
    Pair().(arrivals := [ShutdownMessage], fates := [K.Delivered(1, 0)],
            instances := [K.Newborn, K.Instance(Fresh.(sent := [ShutdownMessage.request]), [0], [])])
  }

  lemma PairLeads()
    ensures Leads(K.Start(true), K.CreateRequest(Some("child"), "uuid", true), Pair())
    ensures Leads(Pair(), K.Arrive(ShutdownMessage), Pair().(arrivals := [ShutdownMessage]))
  {
  }

  lemma AskedLeads()
    ensures Leads(Pair().(arrivals := [ShutdownMessage]), K.RouteNext(true), AskedPair())
  {
    var k := Pair().(arrivals := [ShutdownMessage]);
    Second(K.Newborn, K.Newborn, AskedPair().instances[1]);
    assert K.Route(k, true) == K.Deliver(k, 1);
    assert K.Deliver(k, 1).instances[1] == AskedPair().instances[1] by { FirstSent(Fresh, ShutdownMessage.request); }
  }

  lemma AskedReachable()
    ensures AskedPair() in Reachable()
  {
    StartReachable();
    PairLeads();
    StepOn(K.Start(true), K.CreateRequest(Some("child"), "uuid", true), Pair());
    StepOn(Pair(), K.Arrive(ShutdownMessage), Pair().(arrivals := [ShutdownMessage]));
    AskedLeads();
    StepOn(Pair().(arrivals := [ShutdownMessage]), K.RouteNext(true), AskedPair());
  }

  const Quit: Request := ShutdownMessage.request

  /** Parent and child as they are now, in the middle of a chore. */
  function Both(parent: Shell, child: Shell, chore: K.Chore): K.Kernel {
    AskedPair().(instances := [K.Instance(parent, [], []), K.Instance(child, [0], [])], chore := chore)
  }

  /** The child after it has returned. */
  ghost function Gone(child: Shell): Shell
    requires InRange(child) && Enabled(child, Pass(Fine))
  {
    Next(child, Pass(Fine))
  }

  const Ready: Shell := R.ReadyToShutDown(Quit)

  lemma ReadyReachable()
    ensures Both(Fresh, Ready, K.Free) in Reachable()
  {
    AskedReachable();
    var steps := R.GetReady(Quit);
    WithShellTwice(AskedPair(), 1, Fresh, Fresh);
    ShellRun(AskedPair(), 1, Fresh.(sent := [Quit]), steps);
    Second(K.Newborn, AskedPair().instances[1], K.Instance(Ready, [0], []));
  }

  /** The child returns. */
  lemma ChildReturns(parent: Shell, child: Shell, chore: K.Chore)
    requires Both(parent, child, chore) in Reachable() && child == Ready.(commands := child.commands)
    ensures InRange(child) && Enabled(child, Pass(Fine)) && Both(parent, Gone(child), chore) in Reachable()
    ensures Gone(child).point == Exited(ShutDown) && Gone(child).applied == 0 && Gone(child).commands == child.commands
  {
    R.PassShutsDown(child, Quit);
    var k := Both(parent, child, chore);
    ShellStepOn(k, 1, Pass(Fine));
    Second(k.instances[0], k.instances[1], K.Instance(Gone(child), [0], []));
  }

  const Everyone: set<string> := {"", "child"}

  lemma InterruptLeads(parent: Shell, child: Shell)
    ensures Leads(Both(parent, child, K.Free), K.InterruptRequest([]), Both(parent, child, K.Interrupting(Everyone)))
  {
    var k := Both(parent, child, K.Free);
    assert k.registry.Keys == Everyone;
    assert K.Flush(k, []) == k;
  }

  lemma ReleaseLeads(parent: Shell, child: Shell)
    ensures Leads(Both(parent, child, K.Free), K.ReleaseRequest([], "hold", "ok"),
                  Both(parent, child, K.Releasing(Everyone, "hold", "ok")))
  {
    var k := Both(parent, child, K.Free);
    assert k.registry.Keys == Everyone;
    assert K.Flush(k, []) == k;
  }

  /** A run in which an interrupt request ends the kernel loop and reaches nobody, although the parent
      is running: the child has returned and has not been reaped, and the loop comes to it first. */
  lemma InterruptReachesNobody() returns (acts: seq<K.Act>)
    ensures Runs(K.Start(true), acts)
    ensures
      var k := Final(K.Start(true), acts);
      k.over && k.registry == map["" := 0, "child" := 1] && |k.instances| == 2 && k.instances[0] == K.Newborn
  {
    ReadyReachable();
    ChildReturns(Fresh, Ready, K.Free);
    var child := Gone(Ready);
    InterruptLeads(Fresh, child);
    StepOn(Both(Fresh, child, K.Free), K.InterruptRequest([]), Both(Fresh, child, K.Interrupting(Everyone)));
    var k := Both(Fresh, child, K.Interrupting(Everyone));
    InterruptMayReachNobody(k, "child");
    StepOn(k, K.SendInterrupt("child"), K.After(k, K.SendInterrupt("child")));
    acts :| Runs(K.Start(true), acts) && Final(K.Start(true), acts) == K.After(k, K.SendInterrupt("child"));
  }

  lemma ParentTold()
    ensures Leads(Both(Fresh, Ready, K.Interrupting(Everyone)), K.SendInterrupt(""),
                  Both(Fresh.(commands := [Interrupt(0)]), Ready, K.Interrupting({"child"})))
  {
    var k := Both(Fresh, Ready, K.Interrupting(Everyone));
    assert Everyone - {""} == {"child"};
    assert K.Command(K.Newborn, Interrupt(0)) == K.Instance(Fresh.(commands := [Interrupt(0)]), [], []);
    assert k.instances[0 := K.Instance(Fresh.(commands := [Interrupt(0)]), [], [])]
           == [K.Instance(Fresh.(commands := [Interrupt(0)]), [], []), k.instances[1]];
  }

  /** A run in which no shell has returned when the interrupt request comes, and it ends the loop all
      the same: the child returns while the loop sends to the parent. */
  lemma InterruptOvertaken() returns (acts: seq<K.Act>)
    ensures Runs(K.Start(true), acts)
    ensures
      var k := Final(K.Start(true), acts);
      && k.over && |k.instances| == 2 && k.instances[0].shell.commands == [Interrupt(0)]
      && k.instances[1].shell.point == Exited(ShutDown) && k.instances[1].shell.commands == []
  {
    ReadyReachable();
    InterruptLeads(Fresh, Ready);
    StepOn(Both(Fresh, Ready, K.Free), K.InterruptRequest([]), Both(Fresh, Ready, K.Interrupting(Everyone)));
    ParentTold();
    var parent := Fresh.(commands := [Interrupt(0)]);
    StepOn(Both(Fresh, Ready, K.Interrupting(Everyone)), K.SendInterrupt(""), Both(parent, Ready, K.Interrupting({"child"})));
    ChildReturns(parent, Ready, K.Interrupting({"child"}));
    var k := Both(parent, Gone(Ready), K.Interrupting({"child"}));
    InterruptMayReachNobody(k, "child");
    StepOn(k, K.SendInterrupt("child"), K.After(k, K.SendInterrupt("child")));
    acts :| Runs(K.Start(true), acts) && Final(K.Start(true), acts) == K.After(k, K.SendInterrupt("child"));
  }

  const Holding: Shell := Ready.(commands := [Release("hold", "ok")])

  const AwaitChild: K.Chore := K.Awaiting({""}, "hold", "ok", 1, 0)

  lemma ChildAsked()
    ensures Leads(Both(Fresh, Ready, K.Releasing(Everyone, "hold", "ok")), K.SendRelease("child"), Both(Fresh, Holding, AwaitChild))
  {
    var k := Both(Fresh, Ready, K.Releasing(Everyone, "hold", "ok"));
    assert Everyone - {"child"} == {""};
    assert K.Command(k.instances[1], Release("hold", "ok")) == K.Instance(Holding, [0], []);
    Second(k.instances[0], k.instances[1], K.Instance(Holding, [0], []));
  }

  lemma AwaitedReachable()
    ensures Both(Fresh, Holding, AwaitChild) in Reachable()
  {
    ReadyReachable();
    ReleaseLeads(Fresh, Ready);
    StepOn(Both(Fresh, Ready, K.Free), K.ReleaseRequest([], "hold", "ok"), Both(Fresh, Ready, K.Releasing(Everyone, "hold", "ok")));
    ChildAsked();
    StepOn(Both(Fresh, Ready, K.Releasing(Everyone, "hold", "ok")), K.SendRelease("child"), Both(Fresh, Holding, AwaitChild));
  }

  lemma LostLeads(child: Shell)
    requires child.point.Exited? && child.applied == 0
    ensures Leads(Both(Fresh, child, AwaitChild), K.Lost, Both(Fresh, child, K.Free).(over := true))
  {
  }

  /** A run in which a release is sent to a running shell and ends the loop: the shell returns before it
      applies the release, so the answer never comes. */
  lemma ReleaseLost() returns (acts: seq<K.Act>)
    ensures Runs(K.Start(true), acts)
    ensures
      var k := Final(K.Start(true), acts);
      && k.over && |k.instances| == 2 && k.instances[1].shell.point == Exited(ShutDown)
      && k.instances[1].shell.commands == [Release("hold", "ok")] && k.instances[1].shell.applied == 0
  {
    AwaitedReachable();
    ChildReturns(Fresh, Holding, AwaitChild);
    var child := Gone(Holding);
    LostLeads(child);
    var t := Both(Fresh, child, K.Free).(over := true);
    StepOn(Both(Fresh, child, AwaitChild), K.Lost, t);
    acts :| Runs(K.Start(true), acts) && Final(K.Start(true), acts) == t;
  }

  // ----- Routes and the parent

  /** One session has a route to a shell, and then another session has one too. */
  function Routed(): K.Kernel {
    K.Start(true).(registry := map["" := 0, "x" := 1], instances := [K.Newborn, K.Newborn], routes := map["a" := "x"])
  }

  function SharedRoute(): K.Kernel { Routed().(routes := map["a" := "x", "b" := "x"]) }

  function Orphan(): K.Kernel {
    SharedRoute().(registry := map["" := 0], routes := map["b" := "x"], instances := [K.Newborn, K.Newborn.(owed := [K.OwesStop])])
  }

  lemma RoutedLeads()
    ensures Leads(K.Start(true), K.Open("a", Some("x"), "uuid", true), Routed())
    ensures Leads(Routed(), K.Open("b", Some("x"), "uuid", true), SharedRoute())
  {
  }

  lemma OrphanLeads()
    ensures Leads(SharedRoute(), K.Close("a", "x", true), Orphan())
  {
    assert SharedRoute().routes - {"a"} == map["b" := "x"];
    assert SharedRoute().registry - {"x"} == map["" := 0];
  }

  /** A run in which two sessions route to one shell and one of them closes its route with `delete`. */
  lemma OrphanedRoute() returns (acts: seq<K.Act>)
    ensures Runs(K.Start(true), acts)
    ensures var k := Final(K.Start(true), acts); !k.over && k.routes == map["b" := "x"] && "x" !in k.registry && !RoutesLive(k)
  {
    StartReachable();
    RoutedLeads();
    StepOn(K.Start(true), K.Open("a", Some("x"), "uuid", true), Routed());
    StepOn(Routed(), K.Open("b", Some("x"), "uuid", true), SharedRoute());
    OrphanLeads();
    StepOn(SharedRoute(), K.Close("a", "x", true), Orphan());
    acts :| Runs(K.Start(true), acts) && Final(K.Start(true), acts) == Orphan();
    assert "b" in Orphan().routes;
  }

  /** Deleting the subshell with the empty id removes the parent, and the loop goes on. */
  lemma ParentDeleted(children: bool)
    ensures Runs(K.Start(children), [K.Delete("")])
    ensures var k := Reached(children, [K.Delete("")]); !k.over && k.registry == map[]
  {
    StartSound(children);
    var k := K.Start(children);
    ActSound(k, K.Delete(""));
    assert [K.Delete("")][1..] == [] && Runs(K.After(k, K.Delete("")), []);
  }

  // ----- Closing a subshell

  const Cell: K.Inbound := K.Inbound(Request("cell", Execute, 0.0, true, false, false, true, true), "", "s", true)

  /** `subshell()` has opened a route to a new shell, which has drained its requests. */
  function Subshelled(s: Shell): K.Kernel {
    K.Start(true).(registry := map["" := 0, "uuid" := 1], routes := map["s" := "uuid"], minted := {"uuid"},
                   instances := [K.Newborn, K.Instance(s, [], [])])
  }

  const Drained: Shell := Fresh.(point := Controls)

  /** The same with a request routed to that shell, and what the shell is still owed. */
  function WithCell(s: Shell, owed: seq<K.Debt>): K.Kernel {
    Subshelled(s).(arrivals := [Cell], fates := [K.Delivered(1, 0)], instances := [K.Newborn, K.Instance(s, [0], owed)])
  }

  const Waiting: Shell := Drained.(sent := [Cell.request])

  function ClosedWithCell(s: Shell, owed: seq<K.Debt>): K.Kernel {
    WithCell(s, owed).(registry := map["" := 0], routes := map[])
  }

  lemma OpenLeads()
    ensures Leads(K.Start(true), K.Open("s", None, "uuid", true), Subshelled(Fresh))
  {
  }

  lemma DrainLeads()
    ensures Leads(Subshelled(Fresh), K.ShellStep(1, TakeIncoming), Subshelled(Drained))
  {
    assert DrainIncoming(Fresh) == Fresh;
    Second(K.Newborn, K.Newborn, K.Instance(Drained, [], []));
  }

  lemma CellArrives()
    ensures Leads(Subshelled(Drained), K.Arrive(Cell), Subshelled(Drained).(arrivals := [Cell]))
  {
  }

  lemma CellLeads()
    ensures Leads(Subshelled(Drained).(arrivals := [Cell]), K.RouteNext(true), WithCell(Waiting, []))
  {
    var k := Subshelled(Drained).(arrivals := [Cell]);
    assert K.Target(k, Cell) == "uuid";
    Second(K.Newborn, k.instances[1], K.Instance(Waiting, [0], []));
    assert K.Route(k, true) == K.Deliver(k, 1);
    assert K.Deliver(k, 1).instances[1] == K.Instance(Waiting, [0], []) by { FirstSent(Drained, Cell.request); }
  }

  lemma CloseLeads()
    ensures Leads(WithCell(Waiting, []), K.Close("s", "uuid", true), ClosedWithCell(Waiting, [K.OwesStop]))
  {
    var k := WithCell(Waiting, []);
    assert k.routes - {"s"} == map[] && k.registry - {"uuid"} == map["" := 0];
    Second(K.Newborn, k.instances[1], K.Instance(Waiting, [0], [K.OwesStop]));
  }

  lemma StopLeads()
    ensures Leads(ClosedWithCell(Waiting, [K.OwesStop]), K.Background(1), ClosedWithCell(Waiting.(commands := [Stop]), []))
  {
    var k := ClosedWithCell(Waiting, [K.OwesStop]);
    assert K.Farewell(k.instances[1]) == K.Instance(Waiting.(commands := [Stop]), [0], []);
    Second(K.Newborn, k.instances[1], K.Instance(Waiting.(commands := [Stop]), [0], []));
  }

  lemma ClosedReachable()
    ensures ClosedWithCell(Waiting.(commands := [Stop]), []) in Reachable()
  {
    StartReachable();
    OpenLeads();
    DrainLeads();
    CellArrives();
    StepOn(K.Start(true), K.Open("s", None, "uuid", true), Subshelled(Fresh));
    StepOn(Subshelled(Fresh), K.ShellStep(1, TakeIncoming), Subshelled(Drained));
    StepOn(Subshelled(Drained), K.Arrive(Cell), Subshelled(Drained).(arrivals := [Cell]));
    CellLeads();
    StepOn(Subshelled(Drained).(arrivals := [Cell]), K.RouteNext(true), WithCell(Waiting, []));
    CloseLeads();
    StopLeads();
    StepOn(WithCell(Waiting, []), K.Close("s", "uuid", true), ClosedWithCell(Waiting, [K.OwesStop]));
    StepOn(ClosedWithCell(Waiting, [K.OwesStop]), K.Background(1), ClosedWithCell(Waiting.(commands := [Stop]), []));
  }

  /** A run in which `subshell()` ends and a request that was routed to its shell before gets no reply:
      the shell had drained its requests, and reads the stop before it drains them again. */
  lemma RequestLostAtClose() returns (acts: seq<K.Act>)
    ensures Runs(K.Start(true), acts)
    ensures
      var k := Final(K.Start(true), acts);
      && k.fates == [K.Delivered(1, 0)] && k.arrivals == [Cell] && |k.instances| == 2
      && k.instances[1].shell.point == Exited(Stopped) && Replies(About(k.instances[1].shell.log, 0)) == 0
  {
    ClosedReachable();
    var told := Waiting.(commands := [Stop]);
    var steps := R.StopAtOnce(told);
    WithShellTwice(ClosedWithCell(told, []), 1, told, told);
    ShellRun(ClosedWithCell(told, []), 1, told, steps);
    var k := WithShell(ClosedWithCell(told, []), 1, R.Final(told, steps));
    acts :| Runs(K.Start(true), acts) && Final(K.Start(true), acts) == k;
    assert About([], 0) == [] && Replies([]) == 0;
  }
}
