/** The kernel loop with its registry and route overrides updated in place, arm by arm. */
module KernelLoop {
  import opened Options
  import opened Messages
  import opened Scheduler
  import K = Kernel
  import KR = KernelRuns

  lemma OneStep(k: K.Kernel, a: K.Act, t: K.Kernel)
    requires K.Rooted(k) && K.Can(k, a) && t == K.After(k, a) && K.Rooted(t)
    ensures KR.Runs(k, [a]) && KR.Final(k, [a]) == t
  {
    assert KR.Runs(t, []) && [a][1..] == [];
  }

  /** `reply_subshell_error` and `reply_error`: the messages about a refused message, one after another. */
  method ErrorReply(g: nat, m: K.Inbound, why: K.Refusal) returns (published: seq<Event>)
    ensures published == K.Notice(g, m, why)
  {
    published := [];
    if m.request.kind.Service? && !m.isRequest { return; }
    var ename := if why.NotFound? then "SubshellNotFound" else "SubshellCreationError";
    if m.request.kind.Execute? { published := published + [Busy(g)] + [Failure(g, ename)]; }
    published := published + [Reply(g, Error(ename), if m.request.kind.Execute? then Some(0) else None)];
    if m.request.kind.Execute? { published := published + [Idle(g)]; }
  }

  /** `pending` is what the shell channel holds, `routed` counts what was taken from it, and
      `instances` are the spawned shell tasks. `model` is the state of the kernel machine that the fields stand for. */
  class Loop {
    const children: bool
    var pending: seq<K.Inbound>
    var shells: map<string, nat>
    var routes: map<string, string>
    var instances: seq<K.Instance>
    var over: bool
    var routed: nat
    var log: seq<Event>
    var chore: K.Chore
    ghost var model: K.Kernel

    ghost predicate Valid()
      reads this
    {
      && K.Rooted(model) && pending == model.arrivals[|model.fates|..] && shells == model.registry && routes == model.routes
      && instances == model.instances && over == model.over && children == model.children
      && routed == |model.fates| && log == model.log && chore == model.chore
    }

    constructor (children: bool)
      ensures Valid() && model == K.Start(children)
    {
      this.children := children;
      pending, shells, routes, instances, over, routed, log, chore := [], map["" := 0], map[], [K.Newborn], false, 0, [], K.Free;
      model := K.Start(children);
    }

    /** `create_subshell`. */
    method CreateSubshell(requested: Option<string>, uuid: string, ok: bool) returns (id: Option<string>)
      requires Valid()
      modifies this
      ensures Valid() && model == K.Made(old(model), K.Name(requested, uuid), ok)
      ensures pending == old(pending) && routes == old(routes)
      ensures id == if K.Makes(old(model), K.Name(requested, uuid), ok) then Some(K.Name(requested, uuid)) else None
    {
      var name := if requested.Some? then requested.value else uuid;
      if name == "" || !children { return None; }
      if name in shells { return Some(name); }
      if !ok { return None; }
      shells := shells[name := |instances|];
      instances := instances + [K.Newborn];
      model := K.Made(model, name, ok);
      return Some(name);
    }

    /** `reply_subshell_error` on the next message, which is then done with. */
    method Refuse(why: K.Refusal)
      requires Valid() && pending != []
      modifies this
      ensures Valid() && model == K.Refuse(old(model), why) && pending == old(pending)[1..] && shells == old(shells)
    {
      ghost var after := K.Refuse(model, why);
      var published := ErrorReply(routed, pending[0], why);
      log := log + published;
      pending, routed, model := pending[1..], routed + 1, after;
    }

    /** The last lines of `route_shell`: send the message to a shell that is registered and running,
        or answer that there is none. */
    method Dispatch(id: string) returns (delivered: bool)
      requires Valid() && pending != []
      modifies this
      ensures Valid() && model == K.Dispatch(old(model), id) && pending == old(pending)[1..]
      ensures delivered == (id in old(shells) && !old(instances)[old(shells)[id]].shell.point.Exited?)
    {
      delivered := id in shells && !instances[shells[id]].shell.point.Exited?;
      if !delivered {
        Refuse(K.NotFound);
        return;
      }
      var i := shells[id];
      var x := instances[i];
      var sent := x.shell.sent + [pending[0].request];
      instances := instances[i := x.(shell := x.shell.(sent := sent), origins := x.origins + [routed])];
      model := K.Deliver(model, i);
      pending, routed := pending[1..], routed + 1;
    }

    /** `route_shell` on the next message. Says whether it was delivered. */
    method RouteShell(ok: bool) returns (delivered: bool)
      requires Valid() && pending != []
      modifies this
      ensures Valid() && model == K.Route(old(model), ok) && pending == old(pending)[1..]
    {
      var m := pending[0];
      var id := "";
      if m.subshell != "" {
        id := m.subshell;
      } else if m.request.kind.Execute? && m.session in routes {
        id := routes[m.session];
      }
      if m.subshell != "" && id !in shells {
        var created := CreateSubshell(Some(id), "", ok);
        if created.None? {
          Refuse(K.CreationFailed);
          return false;
        }
      }
      delivered := Dispatch(id);
    }

    /** `route_pending_shells`. `oks` says, message by message, whether the language would make a child. */
    method RoutePending(oks: seq<bool>)
      requires Valid() && |oks| == |pending|
      modifies this
      ensures Valid() && model == K.Flush(old(model), oks) && pending == []
    {
      var n := 0;
      while pending != []
        invariant Valid() && n + |pending| == |oks|
        invariant K.Flush(model, oks[n..]) == K.Flush(old(model), oks)
        decreases |pending|
      {
        var _ := RouteShell(oks[n]);
        assert oks[n..][0] == oks[n] && oks[n..][1..] == oks[n + 1..];
        n := n + 1;
      }
    }

    /** An await: other tasks may take steps. */
    method Pause() returns (ghost acts: seq<K.Act>)
      requires Valid()
      modifies this
      ensures Valid() && KR.Runs(old(model), acts) && model == KR.Final(old(model), acts) && forall a | a in acts :: K.Meanwhile(a)
      ensures shells == old(shells) && chore == old(chore) && over == old(over)
    {
      acts := [];
    }

    /** Send one shell its interrupt, or end the loop if it has returned. */
    method SendInterrupt(id: string)
      requires Valid() && K.Can(model, K.SendInterrupt(id))
      modifies this
      ensures Valid() && model == K.After(old(model), K.SendInterrupt(id)) && shells == old(shells)
    {
      ghost var after := K.After(model, K.SendInterrupt(id));
      var i := shells[id];
      if instances[i].shell.point.Exited? {
        over, chore := true, K.Free;
      } else {
        instances := instances[i := K.Command(instances[i], Interrupt(|instances[i].shell.sent|))];
        chore := if chore.left == {id} then K.Free else K.Interrupting(chore.left - {id});
      }
      model := after;
    }

    /** One round of `interrupt_shells`: an await, and the send to a shell that is left. */
    method InterruptNext() returns (ghost acts: seq<K.Act>)
      requires Valid() && !over && chore.Interrupting? && chore.left != {} && chore.left <= shells.Keys
      modifies this
      ensures Valid() && shells == old(shells)
      ensures KR.Runs(old(model), acts) && model == KR.Final(old(model), acts)
      ensures forall a | a in acts :: K.Meanwhile(a) || a.SendInterrupt?
      ensures chore.Free? || (chore.Interrupting? && !over && chore.left != {} && chore.left < old(chore).left)
    {
      acts := Pause();
      var id :| id in chore.left;
      ghost var before := model;
      SendInterrupt(id);
      OneStep(before, K.SendInterrupt(id), model);
      KR.RunOn(old(model), acts, [K.SendInterrupt(id)]);
      acts := acts + [K.SendInterrupt(id)];
    }

    /** `interrupt_shells`: it goes over the registry in any order, with the shells running between the
        sends, and gives up at a shell that has returned. `acts` is the run that it makes. */
    method InterruptShells() returns (ghost acts: seq<K.Act>)
      requires Valid() && !over && chore.Free?
      modifies this
      ensures Valid() && chore.Free?
      ensures K.Rooted(old(model)) && K.Can(old(model), K.Signal)
      ensures KR.Runs(K.After(old(model), K.Signal), acts) && model == KR.Final(K.After(old(model), K.Signal), acts)
      ensures forall a | a in acts :: K.Meanwhile(a) || a.SendInterrupt?
    {
      chore := if shells == map[] then K.Free else K.Interrupting(shells.Keys);
      model := K.After(model, K.Signal);
      ghost var k := model;
      acts := [];
      while chore.Interrupting?
        invariant Valid() && (chore.Free? || (chore.Interrupting? && !over && chore.left != {} && chore.left <= shells.Keys))
        invariant KR.Runs(k, acts) && model == KR.Final(k, acts)
        invariant forall a | a in acts :: K.Meanwhile(a) || a.SendInterrupt?
        decreases if chore.Interrupting? then chore.left else {}
      {
        ghost var more := InterruptNext();
        KR.RunOn(k, acts, more);
        acts := acts + more;
      }
    }

    /** Send one shell the release, or end the loop if it has returned. */
    method SendRelease(id: string)
      requires Valid() && K.Can(model, K.SendRelease(id))
      modifies this
      ensures Valid() && model == K.After(old(model), K.SendRelease(id))
    {
      ghost var after := K.After(model, K.SendRelease(id));
      var i := shells[id];
      if instances[i].shell.point.Exited? {
        over, chore := true, K.Free;
      } else {
        var at := |instances[i].shell.commands|;
        instances := instances[i := K.Command(instances[i], Release(chore.msgId, chore.status))];
        chore := K.Awaiting(chore.left - {id}, chore.msgId, chore.status, i, at);
      }
      model := after;
    }

    /** The answer to a release comes, or its sender is gone and the loop ends. */
    method TakeAnswer() returns (answered: bool)
      requires Valid() && !over && (K.Applied(model) || K.Dropped(model))
      modifies this
      ensures Valid() && answered == K.Applied(old(model))
      ensures model == K.After(old(model), if answered then K.Answered else K.Lost)
    {
      answered := instances[chore.shell].shell.applied > chore.at;
      model := K.After(model, if answered then K.Answered else K.Lost);
      if answered {
        chore := if chore.left == {} then K.Free else K.Releasing(chore.left, chore.msgId, chore.status);
      } else {
        over, chore := true, K.Free;
      }
    }

    /** The `Open` command. */
    method Open(session: string, requested: Option<string>, uuid: string, ok: bool) returns (id: Option<string>)
      requires Valid() && !over && chore.Free? && K.Unused(model, uuid)
      modifies this
      ensures Valid() && model == K.After(old(model), K.Open(session, requested, uuid, ok))
    {
      ghost var after := K.After(model, K.Open(session, requested, uuid, ok));
      if session in routes { return None; }
      id := CreateSubshell(requested, uuid, ok);
      if id.Some? { routes := routes[session := id.value]; }
      model := after;
    }

    /** The `Close` command. Says whether the route was active. */
    method Close(session: string, id: string, delete: bool) returns (active: bool)
      requires Valid() && !over && chore.Free?
      modifies this
      ensures Valid() && model == K.After(old(model), K.Close(session, id, delete))
      ensures active == (session in old(routes) && old(routes)[session] == id)
    {
      ghost var closed := K.After(model, K.Close(session, id, delete));
      active := session in routes && routes[session] == id;
      if active {
        routes := routes - {session};
        if delete && id in shells {
          var i := shells[id];
          shells := shells - {id};
          instances := instances[i := instances[i].(owed := [K.OwesStop])];
        }
      }
      model := closed;
    }

    /** The `delete_subshell_request`. Says whether the shell was there. */
    method Delete(id: string) returns (found: bool)
      requires Valid() && !over && chore.Free?
      modifies this
      ensures Valid() && model == K.After(old(model), K.Delete(id)) && found == (id in old(shells))
    {
      ghost var deleted := K.After(model, K.Delete(id));
      found := id in shells;
      if found {
        var i := shells[id];
        shells := shells - {id};
        instances := instances[i := instances[i].(owed := [K.OwesInterrupt, K.OwesStop])];
        routes := map s | s in routes && routes[s] != id :: routes[s];
      }
      model := deleted;
    }

    /** A shell task that has returned is reaped. */
    method Reap(id: string)
      requires Valid() && !over && chore.Free? && id in shells && instances[shells[id]].shell.point.Exited?
      modifies this
      ensures Valid() && model == K.After(old(model), K.Reap(id))
    {
      ghost var reaped := K.After(model, K.Reap(id));
      over := id == "" || instances[shells[id]].shell.point == Exited(Crashed);
      shells := shells - {id};
      routes := map s | s in routes && routes[s] != id :: routes[s];
      model := reaped;
    }
  }
}
