/** The kernel loop: it routes shell requests to shells, keeps the registry of shells and the
    per-session route overrides, and sends controls. Shells run beside it, step by step. */
module Kernel {
  import opened Options
  import opened Messages
  import opened Scheduler
  import opened SchedulerRuns

  /** A message on the shell channel: `isRequest` says of a type the scheduler does not look at that it ends in `_request`, and an
      absent or empty `subshell_id` is the empty string. */
  datatype Inbound = Inbound(request: Request, subshell: string, session: string, isRequest: bool)

  /** An arm of the kernel loop that awaits more than once: the shells that an interrupt or a release
      still has to be sent to, by id, or the shell whose answer to the release at position `at` of its
      controls the loop awaits. */
  datatype Chore =
    | Free
    | Interrupting(left: set<string>)
    | Releasing(left: set<string>, msgId: string, status: string)
    | Awaiting(left: set<string>, msgId: string, status: string, shell: nat, at: nat)

  /** What `stop_shell` still has to send to a shell. */
  datatype Debt = OwesInterrupt | OwesStop

  /** A shell that was spawned, with the arrival number of each request sent to it, and what the task
      that stops it in the background still owes it. */
  datatype Instance = Instance(shell: Shell, origins: seq<nat>, owed: seq<Debt>)

  datatype Refusal = NotFound | CreationFailed

  /** What routing did with a message. */
  datatype Fate = Delivered(shell: nat, at: nat) | Refused(why: Refusal)

  /** The message's type ends in `_request`. */
  predicate Asks(m: Inbound) { !m.request.kind.Service? || m.isRequest }

  /** `arrivals` is the shell channel read up to `|fates|`. `registry` maps a subshell id to the
      shell it names, the parent under the empty id. `log` is what the kernel loop itself publishes and
      replies about arrivals, by arrival number. `chore` is what the loop is in the middle of. `minted` collects the ids made for `subshell()`,
      and `over` is set when the kernel loop has returned. */
  datatype Kernel = Kernel(arrivals: seq<Inbound>, fates: seq<Fate>, instances: seq<Instance>,
                           registry: map<string, nat>, routes: map<string, string>, children: bool, minted: set<string>, over: bool,
                           log: seq<Event>, chore: Chore)

  const Newborn: Instance := Instance(Fresh, [], [])

  /** A kernel as it starts: only the parent shell. */
  function Start(children: bool): Kernel { Kernel([], [], [Newborn], map["" := 0], map[], children, {}, false, [], Free) }

  ghost predicate Rooted(k: Kernel) {
    && |k.fates| <= |k.arrivals|
    && (forall id | id in k.registry :: k.registry[id] < |k.instances|)
    && (forall a, b | a in k.registry && b in k.registry && a != b :: k.registry[a] != k.registry[b])
  }

  // ----- Creating and routing

  /** `create_subshell` for an id that is not empty. `ok` is whether the language makes a child. */
  function Create(k: Kernel, id: string, ok: bool): Option<Kernel> {
    if !k.children then None
    else if id in k.registry then Some(k)
    else if !ok then None
    else Some(k.(instances := k.instances + [Newborn], registry := k.registry[id := |k.instances|]))
  }

  /** Whether `create_subshell` names a shell, and the kernel after it. */
  predicate Makes(k: Kernel, id: string, ok: bool) { id != "" && Create(k, id, ok).Some? }

  function Made(k: Kernel, id: string, ok: bool): Kernel { if Makes(k, id, ok) then Create(k, id, ok).value else k }

  /** The shell a message asks for. */
  function Target(k: Kernel, m: Inbound): string {
    if m.subshell != "" then m.subshell
    else if m.request.kind.Execute? && m.session in k.routes then k.routes[m.session]
    else ""
  }

  /** Send the next message to shell `i`. */
  function Deliver(k: Kernel, i: nat): Kernel
    requires |k.fates| < |k.arrivals| && i < |k.instances|
  {
    var x := k.instances[i];
    var sent := x.shell.(sent := x.shell.sent + [k.arrivals[|k.fates|].request]);
    k.(instances := k.instances[i := x.(shell := sent, origins := x.origins + [|k.fates|])],
       fates := k.fates + [Delivered(i, |x.shell.sent|)])
  }

  function RefusalName(why: Refusal): string { if why.NotFound? then "SubshellNotFound" else "SubshellCreationError" }

  /** What `reply_subshell_error` publishes about message `g`: nothing if it asks for no reply, a reply,
      or a reply inside a status bracket with execution count 0. */
  function Notice(g: nat, m: Inbound, why: Refusal): (ms: seq<Event>)
    ensures forall e | e in ms :: Own(e, g)
  {
    if !Asks(m) then []
    else if m.request.kind.Execute? then RefuseScript(g, RefusalName(why), 0)
    else [Reply(g, Error(RefusalName(why)), None)]
  }

  function Refuse(k: Kernel, why: Refusal): Kernel
    requires |k.fates| < |k.arrivals|
  {
    k.(fates := k.fates + [Refused(why)], log := k.log + Notice(|k.fates|, k.arrivals[|k.fates|], why))
  }

  /** The last lines of `route_shell`: deliver to a registered shell that is still running. */
  function Dispatch(k: Kernel, id: string): Kernel
    requires Rooted(k) && |k.fates| < |k.arrivals|
  {
    if id in k.registry && !k.instances[k.registry[id]].shell.point.Exited? then Deliver(k, k.registry[id])
    else Refuse(k, NotFound)
  }

  /** `route_shell` on the next message. */
  function Route(k: Kernel, ok: bool): Kernel
    requires Rooted(k) && |k.fates| < |k.arrivals|
  {
    var m := k.arrivals[|k.fates|];
    var id := Target(k, m);
    if m.subshell != "" && id !in k.registry then
      match Create(k, id, ok)
      case None => Refuse(k, CreationFailed)
      case Some(c) => Dispatch(c, id)
    else Dispatch(k, id)
  }

  lemma RouteRooted(k: Kernel, ok: bool)
    requires Rooted(k) && |k.fates| < |k.arrivals|
    ensures Rooted(Route(k, ok)) && |Route(k, ok).fates| == |k.fates| + 1 && Route(k, ok).arrivals == k.arrivals
  {
  }

  /** `route_pending_shells`: route the next messages, one for each of `oks`. */
  function Flush(k: Kernel, oks: seq<bool>): (t: Kernel)
    requires Rooted(k) && |oks| <= |k.arrivals| - |k.fates|
    ensures Rooted(t) && t.arrivals == k.arrivals && |t.fates| == |k.fates| + |oks|
    decreases |oks|
  {
    if oks == [] then k
    else
      RouteRooted(k, oks[0]);
      Flush(Route(k, oks[0]), oks[1..])
  }

  // ----- Controls

  /** Whether some id names shell `i`. */
  ghost predicate Registered(k: Kernel, i: nat) { exists id :: id in k.registry && k.registry[id] == i }

  /** Sending a control to a shell that has returned does nothing. */
  function Command(x: Instance, c: Control): Instance {
    if x.shell.point.Exited? then x else x.(shell := x.shell.(commands := x.shell.commands + [c]))
  }

  /** Send a control to a registered shell and go on with `chore`, or end the loop if the shell has
      returned. */
  function Tell(k: Kernel, id: string, c: Control, chore: Chore): Kernel
    requires Rooted(k) && id in k.registry
  {
    var i := k.registry[id];
    if k.instances[i].shell.point.Exited? then k.(over := true, chore := Free)
    else k.(instances := k.instances[i := Command(k.instances[i], c)], chore := chore)
  }

  function StillInterrupting(left: set<string>): Chore { if left == {} then Free else Interrupting(left) }

  function StillReleasing(left: set<string>, msgId: string, status: string): Chore {
    if left == {} then Free else Releasing(left, msgId, status)
  }

  /** The awaited shell has applied the release. */
  predicate Applied(k: Kernel) {
    k.chore.Awaiting? && k.chore.shell < |k.instances| && k.instances[k.chore.shell].shell.applied > k.chore.at
  }

  /** The awaited shell has returned and dropped the release. */
  predicate Dropped(k: Kernel) {
    k.chore.Awaiting? && k.chore.shell < |k.instances| && k.instances[k.chore.shell].shell.point.Exited? && !Applied(k)
  }

  /** Take `id` out of the registry and leave its shell to a task that stops it. */
  function Retire(k: Kernel, id: string, interrupt: bool): Kernel
    requires Rooted(k) && id in k.registry
  {
    var i := k.registry[id];
    k.(registry := k.registry - {id},
       instances := k.instances[i := k.instances[i].(owed := if interrupt then [OwesInterrupt, OwesStop] else [OwesStop])])
  }

  /** The next control of `stop_shell`. */
  function Farewell(x: Instance): Instance
    requires x.owed != []
  {
    Command(x, if x.owed[0].OwesInterrupt? then Interrupt(|x.shell.sent|) else Stop).(owed := x.owed[1..])
  }

  function Unrouted(routes: map<string, string>, id: string): map<string, string> {
    map s | s in routes && routes[s] != id :: routes[s]
  }

  // ----- Steps

  /** The arms of the kernel loop, the steps of the tasks that stop shells, and the steps of shell `i`
      on its own. An `interrupt_request` is `InterruptRequest` and then one `SendInterrupt` a shell, in
      any order. A `release_request` is `ReleaseRequest` and then, a shell, one `SendRelease` and one
      `Answered`, or `Lost` if the answer never comes. `Finish`
      ends the loop from outside, and `Drain` stops the shells that are left. `uuid` is the id that a new UUID would give. */
  datatype Act =
    | Arrive(message: Inbound)
    | RouteNext(ok: bool)
    | InterruptRequest(oks: seq<bool>)
    | Signal
    | SendInterrupt(id: string)
    | ReleaseRequest(oks: seq<bool>, msgId: string, status: string)
    | SendRelease(id: string)
    | Answered
    | Lost
    | Open(session: string, requested: Option<string>, uuid: string, ok: bool)
    | Close(session: string, id: string, delete: bool)
    | CreateRequest(requested: Option<string>, uuid: string, ok: bool)
    | Delete(id: string)
    | Reap(id: string)
    | Finish
    | Drain(id: string)
    | Background(i: nat)
    | ShellStep(i: nat, step: Step)

  function Name(requested: Option<string>, uuid: string): string {
    if requested.Some? then requested.value else uuid
  }

  /** A new UUID names nothing yet. */
  ghost predicate Unused(k: Kernel, uuid: string) {
    uuid != "" && uuid != "sidecar" && uuid !in k.registry && uuid !in k.routes.Values && uuid !in k.minted
  }

  /** The steps of other tasks. */
  predicate Meanwhile(a: Act) { a.Arrive? || a.Background? || a.ShellStep? }

  /** The steps of a chore. */
  predicate Errand(a: Act) { a.SendInterrupt? || a.SendRelease? || a.Answered? || a.Lost? }

  /** In the middle of a chore the loop takes no other arm. A shell is reaped when it has returned. */
  ghost predicate Can(k: Kernel, a: Act)
    requires Rooted(k)
  {
    (k.over ==> a.Drain? || a.Background? || a.ShellStep?) && (!k.chore.Free? ==> Meanwhile(a) || Errand(a)) &&
    match a
    case Arrive(_) => true
    case RouteNext(_) => |k.fates| < |k.arrivals|
    case InterruptRequest(oks) => |oks| == |k.arrivals| - |k.fates|
    case Signal => true
    case SendInterrupt(id) => k.chore.Interrupting? && id in k.chore.left && id in k.registry
    case ReleaseRequest(oks, _, _) => |oks| == |k.arrivals| - |k.fates|
    case SendRelease(id) => k.chore.Releasing? && id in k.chore.left && id in k.registry
    case Answered => Applied(k)
    case Lost => Dropped(k)
    case Open(_, _, uuid, _) => Unused(k, uuid)
    case Close(_, _, _) => true
    case CreateRequest(_, uuid, _) => Unused(k, uuid)
    case Delete(_) => true
    case Reap(id) => id in k.registry && k.instances[k.registry[id]].shell.point.Exited?
    case Finish => true
    case Drain(id) => k.over && id in k.registry
    case Background(i) => i < |k.instances| && k.instances[i].owed != []
    case ShellStep(i, step) =>
      i < |k.instances| && !step.Send? && !step.Command? && InRange(k.instances[i].shell) && Enabled(k.instances[i].shell, step)
  }

  ghost function Opened(k: Kernel, session: string, id: string, ok: bool, minted: bool): Kernel {
    if session in k.routes || !Makes(k, id, ok) then k
    else
      var c := Made(k, id, ok);
      c.(routes := c.routes[session := id], minted := if minted then c.minted + {id} else c.minted)
  }

  ghost function Closed(k: Kernel, session: string, id: string, delete: bool): Kernel
    requires Rooted(k)
  {
    if session !in k.routes || k.routes[session] != id then k
    else
      var c := k.(routes := k.routes - {session});
      if delete && id in c.registry then Retire(c, id, false) else c
  }

  /** The arms that create, open, close, delete, reap and stop shells. */
  predicate Arranges(a: Act) {
    a.Open? || a.Close? || a.CreateRequest? || a.Delete? || a.Reap? || a.Finish? || a.Drain?
  }

  ghost function Arranged(k: Kernel, a: Act): Kernel
    requires Rooted(k) && Can(k, a) && Arranges(a)
  {
    match a
    case Open(session, requested, uuid, ok) => Opened(k, session, Name(requested, uuid), ok, requested.None?)
    case Close(session, id, delete) => Closed(k, session, id, delete)
    case CreateRequest(requested, uuid, ok) => Made(k, Name(requested, uuid), ok)
    case Delete(id) =>
      if id in k.registry then Retire(k.(routes := Unrouted(k.routes, id)), id, true) else k
    case Reap(id) =>
      k.(registry := k.registry - {id}, routes := Unrouted(k.routes, id),
         over := id == "" || k.instances[k.registry[id]].shell.point == Exited(Crashed))
    case Finish => k.(over := true)
    case Drain(id) => Retire(k, id, true)
  }

  /** The steps of a chore. */
  ghost function Carried(k: Kernel, a: Act): Kernel
    requires Rooted(k) && Can(k, a) && Errand(a)
  {
    match a
    case SendInterrupt(id) =>
      Tell(k, id, Interrupt(|k.instances[k.registry[id]].shell.sent|), StillInterrupting(k.chore.left - {id}))
    case SendRelease(id) =>
      var i := k.registry[id];
      Tell(k, id, Release(k.chore.msgId, k.chore.status),
           Awaiting(k.chore.left - {id}, k.chore.msgId, k.chore.status, i, |k.instances[i].shell.commands|))
    case Answered => k.(chore := StillReleasing(k.chore.left, k.chore.msgId, k.chore.status))
    case Lost => k.(over := true, chore := Free)
  }

  ghost function After(k: Kernel, a: Act): Kernel
    requires Rooted(k) && Can(k, a)
  {
    if Arranges(a) then Arranged(k, a)
    else if Errand(a) then Carried(k, a)
    else
      match a
      case Arrive(m) => k.(arrivals := k.arrivals + [m])
      case RouteNext(ok) => Route(k, ok)
      case InterruptRequest(oks) => Flush(k, oks).(chore := StillInterrupting(Flush(k, oks).registry.Keys))
      case Signal => k.(chore := StillInterrupting(k.registry.Keys))
      case ReleaseRequest(oks, msgId, status) =>
        Flush(k, oks).(chore := StillReleasing(Flush(k, oks).registry.Keys, msgId, status))
      case Background(i) => k.(instances := k.instances[i := Farewell(k.instances[i])])
      case ShellStep(i, step) =>
        k.(instances := k.instances[i := k.instances[i].(shell := Next(k.instances[i].shell, step))])
  }
}
