/** What the kernel loop itself answers: every message is delivered or refused, and a refusal is
    answered once. */
module KernelReplies {
  import opened Options
  import opened Messages
  import opened Scheduler
  import opened SchedulerInv
  import R = SchedulerRuns
  import K = Kernel
  import opened KernelRuns

  /** The kernel loop has published about message `g` what a refusal publishes, and else nothing. */
  ghost predicate NoticedAt(k: K.Kernel, g: nat)
    requires |k.fates| <= |k.arrivals|
  {
    About(k.log, g) == if g < |k.fates| && k.fates[g].Refused? then K.Notice(g, k.arrivals[g], k.fates[g].why) else []
  }

  ghost predicate Noticed(k: K.Kernel) { |k.fates| <= |k.arrivals| && forall g: nat :: NoticedAt(k, g) }

  lemma SameNotices(k: K.Kernel, t: K.Kernel)
    requires Noticed(k) && t.log == k.log && t.fates == k.fates && k.arrivals <= t.arrivals
    ensures Noticed(t)
  {
    forall g: nat ensures NoticedAt(t, g) { assert NoticedAt(k, g); }
  }

  lemma DispatchNoticed(k: K.Kernel, id: string)
    requires K.Rooted(k) && Noticed(k) && |k.fates| < |k.arrivals|
    ensures Noticed(K.Dispatch(k, id))
  {
    var t := K.Dispatch(k, id);
    if t.log == k.log && t.fates[|k.fates|].Delivered? {
      forall g: nat ensures NoticedAt(t, g) { assert NoticedAt(k, g); }
    } else {
      RefuseNoticed(k, K.NotFound);
    }
  }

  lemma RefuseNoticed(k: K.Kernel, why: K.Refusal)
    requires Noticed(k) && |k.fates| < |k.arrivals|
    ensures Noticed(K.Refuse(k, why))
  {
    var n, t := |k.fates|, K.Refuse(k, why);
    AboutPublish(k.log, K.Notice(n, k.arrivals[n], why), n);
    forall g: nat ensures NoticedAt(t, g) { assert NoticedAt(k, g); }
  }

  lemma RouteNoticed(k: K.Kernel, ok: bool)
    requires K.Rooted(k) && Noticed(k) && |k.fates| < |k.arrivals|
    ensures Noticed(K.Route(k, ok))
  {
    var m := k.arrivals[|k.fates|];
    var id := K.Target(k, m);
    if m.subshell != "" && id !in k.registry {
      var c := K.Create(k, id, ok);
      if c.Some? {
        SameNotices(k, c.value);
        DispatchNoticed(c.value, id);
      } else {
        RefuseNoticed(k, K.CreationFailed);
      }
    } else {
      DispatchNoticed(k, id);
    }
  }

  lemma {:induction false} FlushNoticed(k: K.Kernel, oks: seq<bool>)
    requires K.Rooted(k) && Noticed(k) && |oks| == |k.arrivals| - |k.fates|
    ensures Noticed(K.Flush(k, oks))
    decreases |oks|
  {
    if oks != [] {
      K.RouteRooted(k, oks[0]);
      RouteNoticed(k, oks[0]);
      FlushNoticed(K.Route(k, oks[0]), oks[1..]);
    }
  }

  /** Arranging shells and running errands publishes nothing and routes nothing. */
  lemma OthersPublishNothing(k: K.Kernel, a: K.Act)
    requires K.Rooted(k) && K.Can(k, a)
    ensures K.Arranges(a) ==> K.Arranged(k, a).log == k.log && K.Arranged(k, a).fates == k.fates && K.Arranged(k, a).arrivals == k.arrivals
    ensures K.Errand(a) ==> K.Carried(k, a).log == k.log && K.Carried(k, a).fates == k.fates && K.Carried(k, a).arrivals == k.arrivals
  {
  }

  lemma ActNoticed(k: K.Kernel, a: K.Act)
    requires K.Rooted(k) && Noticed(k) && K.Can(k, a)
    ensures Noticed(K.After(k, a))
  {
    OthersPublishNothing(k, a);
    if a.RouteNext? {
      RouteNoticed(k, a.ok);
    } else if a.InterruptRequest? || a.ReleaseRequest? {
      FlushNoticed(k, a.oks);
      SameNotices(K.Flush(k, a.oks), K.After(k, a));
    } else {
      SameNotices(k, K.After(k, a));
    }
  }

  lemma {:induction false} RunNoticed(k: K.Kernel, acts: seq<K.Act>)
    requires Sound(k) && Noticed(k) && Runs(k, acts)
    ensures Noticed(Final(k, acts))
    decreases |acts|
  {
    if acts != [] {
      ActSound(k, acts[0]);
      ActNoticed(k, acts[0]);
      RunNoticed(K.After(k, acts[0]), acts[1..]);
    }
  }

  lemma ReachedNoticed(children: bool, acts: seq<K.Act>)
    requires Runs(K.Start(children), acts)
    ensures Noticed(Reached(children, acts))
  {
    StartSound(children);
    forall g: nat ensures NoticedAt(K.Start(children), g) {
      assert About([], g) == [];
    }
    RunNoticed(K.Start(children), acts);
  }

  /** A refusal of a message that asks for a reply holds exactly one, an error. */
  lemma NoticeRepliesOnce(g: nat, m: K.Inbound, why: K.Refusal)
    ensures K.Asks(m) ==> Replies(K.Notice(g, m, why)) == 1
    ensures forall e | e in K.Notice(g, m, why) && e.Reply? :: e.status == Error(K.RefusalName(why))
    ensures m.request.kind.Execute? ==> Bracket(K.Notice(g, m, why))
  {
    var ms := K.Notice(g, m, why);
    if m.request.kind.Execute? {
      assert Bracket(ms);
      BracketRepliesOnce(ms);
    } else if K.Asks(m) {
      NoReplies(ms[..0]);
    }
  }

  /** Over every run a routed message is in exactly one shell, at exactly one place, and the kernel loop
      publishes nothing about it; or it is in no shell and was refused. A refused message that asks for
      a reply has got exactly one, an error, inside a status bracket if it is an execute request. One
      that does not has got nothing. Nothing is published about a message that has not been routed. */
  lemma RoutedExactlyOnce(children: bool, acts: seq<K.Act>, g: nat)
    requires Runs(K.Start(children), acts)
    ensures
      var k := Reached(children, acts);
      var ms := About(k.log, g);
      if g >= |k.fates| then ms == []
      else
        var m := k.arrivals[g];
        match k.fates[g]
        case Refused(why) =>
          && (forall i, at | 0 <= i < |k.instances| && 0 <= at < |k.instances[i].origins| :: k.instances[i].origins[at] != g)
          && (if m.request.kind.Service? && !m.isRequest then ms == [] else Replies(ms) == 1)
          && (forall e | e in ms && e.Reply? ::
                e.status == Error(if why.NotFound? then "SubshellNotFound" else "SubshellCreationError"))
          && (m.request.kind.Execute? ==> Bracket(ms))
        case Delivered(i, at) =>
          && i < |k.instances| && at < |k.instances[i].shell.sent| && k.instances[i].shell.sent[at] == m.request
          && (forall j, b | 0 <= j < |k.instances| && 0 <= b < |k.instances[j].origins| && k.instances[j].origins[b] == g ::
                j == i && b == at)
          && ms == []
  {
    var k := Reached(children, acts);
    ReachedNoticed(children, acts);
    assert NoticedAt(k, g);
    if g < |k.fates| {
      FateIsPlace(k, g);
      if k.fates[g].Refused? { NoticeRepliesOnce(g, k.arrivals[g], k.fates[g].why); }
    }
  }

  /** Kernel loop and shells together never answer an execute request twice. */
  lemma NoRequestIsAnsweredTwice(children: bool, acts: seq<K.Act>, g: nat)
    requires Runs(K.Start(children), acts) && g < |Reached(children, acts).fates|
    requires Reached(children, acts).arrivals[g].request.kind.Execute?
    ensures
      var k := Reached(children, acts);
      var fate := k.fates[g];
      && (fate.Refused? ==> Replies(About(k.log, g)) == 1)
      && (fate.Delivered? ==>
            && fate.shell < |k.instances|
            && Replies(About(k.log, g)) + Replies(About(k.instances[fate.shell].shell.log, fate.at)) <= 1)
  {
    var k := Reached(children, acts);
    RoutedExactlyOnce(children, acts, g);
    var fate := k.fates[g];
    if fate.Delivered? {
      var s := k.instances[fate.shell].shell;
      assert R.Good(s) && IsExecute(s, fate.at);
      assert Transcribed(s, fate.at);
      if fate.at < s.order { R.PlaceReplies(s, fate.at); }
      assert Replies([]) == 0;
    }
  }
}
