/** The arms of the kernel loop that send to one shell after another while the shells run: when an
    interrupt request reaches every shell, and when a release ends the loop. */
module KernelErrands {
  import opened Options
  import opened Messages
  import opened Scheduler
  import opened SchedulerInv
  import K = Kernel
  import opened KernelRuns

  /** A shell that has returned takes no more steps, and nothing changes it. */
  lemma ReturnedStays(k: K.Kernel, a: K.Act, i: nat)
    requires K.Rooted(k) && K.Can(k, a) && K.Meanwhile(a) && i < |k.instances| && k.instances[i].shell.point.Exited?
    ensures i < |K.After(k, a).instances| && K.After(k, a).instances[i].shell == k.instances[i].shell
  {
  }

  /** The steps of other tasks leave the loop's own state alone. */
  lemma MeanwhileKeeps(k: K.Kernel, a: K.Act)
    requires K.Rooted(k) && K.Can(k, a) && K.Meanwhile(a)
    ensures
      var t := K.After(k, a);
      t.chore == k.chore && t.over == k.over && t.registry == k.registry && |t.instances| == |k.instances|
  {
  }

  // ----- Interrupts

  /** Every `SendInterrupt` of the run finds its shell running. */
  ghost predicate MetRunning(k: K.Kernel, acts: seq<K.Act>)
    requires Runs(k, acts)
    decreases |acts|
  {
    acts == [] ||
    ((acts[0].SendInterrupt? ==> !k.instances[k.registry[acts[0].id]].shell.point.Exited?)
     && MetRunning(K.After(k, acts[0]), acts[1..]))
  }

  /** `t` is a later state of `s` with an interrupt that stands behind all requests that `s` had been sent. */
  ghost predicate Told(s: Shell, t: Shell) {
    exists j :: |s.commands| <= j < |t.commands| && t.commands[j].Interrupt? && t.commands[j].cut >= |s.sent|
  }

  /** The ids that an interrupt still has to be sent to. */
  function Left(k: K.Kernel): set<string> { if k.chore.Interrupting? then k.chore.left else {} }

  predicate Interrupts(a: K.Act) { K.Meanwhile(a) || a.SendInterrupt? }

  /** The loop is interrupting shells or done with it. */
  predicate Underway(k: K.Kernel) { k.chore.Free? || k.chore.Interrupting? }

  lemma InterruptStep(k: K.Kernel, a: K.Act)
    requires Sound(k) && K.Can(k, a) && Interrupts(a) && Underway(k)
    ensures
      var t := K.After(k, a);
      && Underway(t) && t.registry == k.registry && Left(t) <= Left(k)
      && (t.over <==> k.over || (a.SendInterrupt? && k.instances[k.registry[a.id]].shell.point.Exited?))
      && (!t.over ==> Left(t) == Left(k) - if a.SendInterrupt? then {a.id} else {})
  {
    if K.Meanwhile(a) { MeanwhileKeeps(k, a); }
  }

  /** A send that finds the shell running leaves it told. */
  lemma SendTells(k: K.Kernel, id: string)
    requires Sound(k) && K.Can(k, K.SendInterrupt(id)) && !k.instances[k.registry[id]].shell.point.Exited?
    ensures
      var i := k.registry[id];
      Told(k.instances[i].shell, K.After(k, K.SendInterrupt(id)).instances[i].shell)
  {
    InterruptStandsBehind(k, id);
    var i := k.registry[id];
    var s, t := k.instances[i].shell, K.After(k, K.SendInterrupt(id)).instances[i].shell;
    assert t.commands[|s.commands|] == Interrupt(|s.sent|);
  }

  lemma ToldLater(s: Shell, t: Shell, u: Shell)
    requires Told(s, t) && t.commands <= u.commands
    ensures Told(s, u)
  {
    var j :| |s.commands| <= j < |t.commands| && t.commands[j].Interrupt? && t.commands[j].cut >= |s.sent|;
    assert u.commands[j] == t.commands[j];
  }

  lemma ToldEarlier(s: Shell, t: Shell, u: Shell)
    requires Told(t, u) && s.commands <= t.commands && s.sent <= t.sent
    ensures Told(s, u)
  {
    var j :| |t.commands| <= j < |u.commands| && u.commands[j].Interrupt? && u.commands[j].cut >= |t.sent|;
    assert |s.commands| <= j;
  }

  lemma {:induction false} InterruptRun(k: K.Kernel, acts: seq<K.Act>)
    requires Sound(k) && Underway(k) && Runs(k, acts) && forall a | a in acts :: Interrupts(a)
    ensures
      var u := Final(k, acts);
      Sound(u) && Grows(k, u) && Underway(u) && u.registry == k.registry && (u.over <==> k.over || !MetRunning(k, acts))
    decreases |acts|
  {
    RunSound(k, acts);
    if acts != [] {
      assert acts[0] in acts;
      InterruptStep(k, acts[0]);
      ActSound(k, acts[0]);
      InterruptRun(K.After(k, acts[0]), acts[1..]);
    }
  }

  /** A shell that was left to be told and is not any more has been told, as long as the loop runs. */
  lemma {:induction false} SentIsTold(k: K.Kernel, acts: seq<K.Act>, id: string)
    requires Sound(k) && Underway(k) && Runs(k, acts) && forall a | a in acts :: Interrupts(a)
    requires id in k.registry && id in Left(k) && !Final(k, acts).over && id !in Left(Final(k, acts))
    ensures
      var i, u := k.registry[id], Final(k, acts);
      i < |u.instances| && Told(k.instances[i].shell, u.instances[i].shell)
    decreases |acts|
  {
    var i, u, a := k.registry[id], Final(k, acts), acts[0];
    assert a in acts;
    var t := K.After(k, a);
    InterruptStep(k, a);
    ActSound(k, a);
    InterruptRun(t, acts[1..]);
    var s := k.instances[i].shell;
    if a == K.SendInterrupt(id) {
      SendTells(k, id);
      ToldLater(s, t.instances[i].shell, u.instances[i].shell);
    } else {
      SentIsTold(t, acts[1..], id);
      ToldEarlier(s, t.instances[i].shell, u.instances[i].shell);
    }
  }

  /** The exact condition. Take an `interrupt_request` and any run of the sends that follow it, with
      steps of other tasks in between, until the loop is done with it. The loop goes on if and only if
      each send found its shell running, and then every shell that was registered has been told. */
  lemma InterruptReachesAllExactly(k: K.Kernel, oks: seq<bool>, acts: seq<K.Act>)
    requires Sound(k) && !k.over && K.Can(k, K.InterruptRequest(oks)) && Runs(K.After(k, K.InterruptRequest(oks)), acts)
    requires (forall a | a in acts :: Interrupts(a)) && Final(K.After(k, K.InterruptRequest(oks)), acts).chore.Free?
    ensures
      var t := K.After(k, K.InterruptRequest(oks));
      var u := Final(t, acts);
      && (!u.over <==> MetRunning(t, acts))
      && (!u.over ==> forall id | id in t.registry ::
            t.registry[id] < |u.instances| && t.registry[id] < |t.instances|
            && Told(t.instances[t.registry[id]].shell, u.instances[t.registry[id]].shell))
  {
    var t := K.After(k, K.InterruptRequest(oks));
    var u := Final(t, acts);
    ActSound(k, K.InterruptRequest(oks));
    FlushKeepsRoutes(k, oks);
    InterruptRun(t, acts);
    if !u.over {
      forall id | id in t.registry
        ensures t.registry[id] < |u.instances| && Told(t.instances[t.registry[id]].shell, u.instances[t.registry[id]].shell)
      {
        assert id in Left(t);
        SentIsTold(t, acts, id);
      }
    }
  }

  /** If a shell that is left to be told has returned, the loop may come to it next: then it ends, and
      nobody is told. */
  lemma InterruptMayReachNobody(k: K.Kernel, id: string)
    requires K.Rooted(k) && !k.over && k.chore.Interrupting? && id in k.chore.left && id in k.registry
    requires k.instances[k.registry[id]].shell.point.Exited?
    ensures K.Can(k, K.SendInterrupt(id))
    ensures var t := K.After(k, K.SendInterrupt(id)); t.over && t.instances == k.instances
  {
  }

  // ----- Releases

  /** The awaited shell after the first `j` steps of a run: it has returned without applying the release. */
  ghost predicate ReturnsFirst(k: K.Kernel, acts: seq<K.Act>, j: nat)
    requires Runs(k, acts) && j <= |acts|
  {
    RunSplit(k, acts, j);
    K.Dropped(Final(k, acts[..j]))
  }

  lemma {:induction false} AwaitRun(k: K.Kernel, acts: seq<K.Act>)
    requires K.Rooted(k) && Runs(k, acts) && forall a | a in acts :: K.Meanwhile(a)
    ensures
      var u := Final(k, acts);
      && u.chore == k.chore && u.over == k.over && u.registry == k.registry && |u.instances| == |k.instances|
      && (K.Dropped(k) ==> K.Dropped(u))
    decreases |acts|
  {
    if acts != [] {
      assert acts[0] in acts;
      MeanwhileKeeps(k, acts[0]);
      if K.Dropped(k) { ReturnedStays(k, acts[0], k.chore.shell); }
      AwaitRun(K.After(k, acts[0]), acts[1..]);
    }
  }

  /** A release to a shell that has returned ends the loop at once. */
  lemma ReleaseToReturned(k: K.Kernel, id: string)
    requires K.Rooted(k) && !k.over && K.Can(k, K.SendRelease(id))
    ensures K.After(k, K.SendRelease(id)).over <==> k.instances[k.registry[id]].shell.point.Exited?
  {
  }

  /** Having returned at some time without applying the release is having done so at the end. */
  lemma ReturnedForGood(t: K.Kernel, acts: seq<K.Act>)
    requires K.Rooted(t) && Runs(t, acts) && forall a | a in acts :: K.Meanwhile(a)
    ensures (exists j :: 0 <= j <= |acts| && ReturnsFirst(t, acts, j)) <==> K.Dropped(Final(t, acts))
  {
    if j :| 0 <= j <= |acts| && ReturnsFirst(t, acts, j) {
      RunSplit(t, acts, j);
      forall a | a in acts[j..] ensures K.Meanwhile(a) { assert a in acts; }
      AwaitRun(Final(t, acts[..j]), acts[j..]);
    }
    if K.Dropped(Final(t, acts)) {
      assert acts[..|acts|] == acts;
      assert ReturnsFirst(t, acts, |acts|);
    }
  }

  /** The exact condition. Take a release that was sent to a running shell, any steps of other tasks
      while the loop awaits the answer, and the step `c` with which the loop goes on. The loop ends if
      and only if at some time in between the shell had returned without applying the release. */
  lemma ReleaseEndsLoopExactly(k: K.Kernel, id: string, acts: seq<K.Act>, c: K.Act)
    requires Sound(k) && !k.over && K.Can(k, K.SendRelease(id)) && !k.instances[k.registry[id]].shell.point.Exited?
    requires Runs(K.After(k, K.SendRelease(id)), acts) && (forall a | a in acts :: K.Meanwhile(a)) && !K.Meanwhile(c)
    requires K.Rooted(Final(K.After(k, K.SendRelease(id)), acts)) && K.Can(Final(K.After(k, K.SendRelease(id)), acts), c)
    ensures
      var t := K.After(k, K.SendRelease(id));
      var v := K.After(Final(t, acts), c);
      && (v.over <==> exists j :: 0 <= j <= |acts| && ReturnsFirst(t, acts, j))
      && (v.over <==> c == K.Lost) && (!v.over <==> c == K.Answered)
  {
    var t := K.After(k, K.SendRelease(id));
    var u := Final(t, acts);
    AwaitRun(t, acts);
    assert u.chore.Awaiting?;
    ReturnedForGood(t, acts);
  }

  /** A shell that is awaited and has not returned keeps the release in its controls, and the answer
      comes with the step that applies it. */
  lemma AwaitedReleaseWaits(k: K.Kernel, id: string, acts: seq<K.Act>)
    requires Sound(k) && K.Can(k, K.SendRelease(id)) && !k.instances[k.registry[id]].shell.point.Exited?
    requires Runs(K.After(k, K.SendRelease(id)), acts)
    ensures
      var i, at := k.registry[id], |k.instances[k.registry[id]].shell.commands|;
      var u := Final(K.After(k, K.SendRelease(id)), acts);
      i < |u.instances| && at < |u.instances[i].shell.commands|
      && u.instances[i].shell.commands[at] == Release(k.chore.msgId, k.chore.status)
  {
    var t := K.After(k, K.SendRelease(id));
    ActSound(k, K.SendRelease(id));
    RunSound(t, acts);
    var i := k.registry[id];
    assert t.instances[i].shell.commands[|k.instances[i].shell.commands|] == Release(k.chore.msgId, k.chore.status);
  }
}
