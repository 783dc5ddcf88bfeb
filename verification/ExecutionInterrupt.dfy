/** The interrupt requests of one execution: requesters, handler registration and `cancelled` waiters
    on any interleaving. A handler call may happen long after the section that decided on it. */
module ExecutionInterrupt {

  /** `request`: the locked section, `notify_waiters`, the handler call, the return. */
  datatype Requester = Asking | Locked(first: bool, call: bool) | Notified(first: bool, call: bool) | Answered(first: bool)

  /** `set_handler`: the locked section, and a call if a request came before. */
  datatype Setter = Setting | Registered(call: bool) | Done | Refused

  /** `cancelled`: enable the notification, look at the flag, sleep. `notified` says that a
      notification has come since it was enabled. */
  datatype Waiter = Starting | Enabled(notified: bool) | Asleep(notified: bool) | Awake

  /** `before` and `after` count the requests whose section ran before and after the registration,
      `calls` the handler calls. */
  datatype State = State(requested: bool, handler: bool, requesters: seq<Requester>, setters: seq<Setter>, waiters: seq<Waiter>,
                         before: nat, after: nat, calls: nat)

  const Initial := State(false, false, [], [], [], 0, 0, 0)

  datatype Step =
    | NewRequest | NewSetter | NewWaiter
    | RequestSection(i: nat) | Notify(i: nat) | RequestCall(i: nat)
    | SetSection(j: nat) | SetCall(j: nat)
    | Enable(k: nat) | Look(k: nat) | Wake(k: nat)

  predicate Can(s: State, a: Step) {
    match a
    case NewRequest => true
    case NewSetter => true
    case NewWaiter => true
    case RequestSection(i) => i < |s.requesters| && s.requesters[i].Asking?
    case Notify(i) => i < |s.requesters| && s.requesters[i].Locked?
    case RequestCall(i) => i < |s.requesters| && s.requesters[i].Notified?
    case SetSection(j) => j < |s.setters| && s.setters[j].Setting?
    case SetCall(j) => j < |s.setters| && s.setters[j].Registered?
    case Enable(k) => k < |s.waiters| && s.waiters[k].Starting?
    case Look(k) => k < |s.waiters| && s.waiters[k].Enabled?
    case Wake(k) => k < |s.waiters| && s.waiters[k].Asleep? && s.waiters[k].notified
  }

  function One(b: bool): nat { if b then 1 else 0 }

  /** `notify_waiters` reaches every enabled notification. */
  function Alert(w: Waiter): Waiter {
    match w
    case Enabled(_) => Enabled(true)
    case Asleep(_) => Asleep(true)
    case _ => w
  }

  function AlertAll(ws: seq<Waiter>): (rs: seq<Waiter>)
    ensures |rs| == |ws| && forall k | 0 <= k < |ws| :: rs[k] == Alert(ws[k])
  {
    seq(|ws|, k requires 0 <= k < |ws| => Alert(ws[k]))
  }

  function Next(s: State, a: Step): State
    requires Can(s, a)
  {
    match a
    case NewRequest => s.(requesters := s.requesters + [Asking])
    case NewSetter => s.(setters := s.setters + [Setting])
    case NewWaiter => s.(waiters := s.waiters + [Starting])
    case RequestSection(i) =>
      s.(requesters := s.requesters[i := Locked(!s.requested, s.handler)], requested := true,
         before := s.before + One(!s.handler), after := s.after + One(s.handler))
    case Notify(i) =>
      s.(requesters := s.requesters[i := Notified(s.requesters[i].first, s.requesters[i].call)], waiters := AlertAll(s.waiters))
    case RequestCall(i) =>
      s.(requesters := s.requesters[i := Answered(s.requesters[i].first)], calls := s.calls + One(s.requesters[i].call))
    case SetSection(j) =>
      if s.handler then s.(setters := s.setters[j := Refused])
      else s.(setters := s.setters[j := Registered(s.requested)], handler := true)
    case SetCall(j) => s.(setters := s.setters[j := Done], calls := s.calls + One(s.setters[j].call))
    case Enable(k) => s.(waiters := s.waiters[k := Enabled(false)])
    case Look(k) => s.(waiters := s.waiters[k := if s.requested then Awake else Asleep(s.waiters[k].notified)])
    case Wake(k) => s.(waiters := s.waiters[k := Awake])
  }

  // ----- Handler calls

  /** How many of `xs` are `p`. */
  function CountIf<T>(xs: seq<T>, p: T -> bool): nat {
    if xs == [] then 0 else CountIf(xs[..|xs| - 1], p) + One(p(xs[|xs| - 1]))
  }

  lemma {:induction false} CountUpdate<T>(xs: seq<T>, i: nat, x: T, p: T -> bool)
    requires i < |xs|
    ensures CountIf(xs[i := x], p) + One(p(xs[i])) == CountIf(xs, p) + One(p(x))
  {
    if i < |xs| - 1 {
      CountUpdate(xs[..|xs| - 1], i, x, p);
      assert xs[i := x][..|xs| - 1] == xs[..|xs| - 1][i := x];
    } else {
      assert xs[i := x][..|xs| - 1] == xs[..|xs| - 1];
    }
  }

  lemma CountMore<T>(xs: seq<T>, x: T, p: T -> bool)
    ensures CountIf(xs + [x], p) == CountIf(xs, p) + One(p(x))
  {
    assert (xs + [x])[..|xs|] == xs;
  }

  /** All, none, and exactly one. */
  lemma {:induction false} CountAll<T>(xs: seq<T>, p: T -> bool)
    ensures (forall i | 0 <= i < |xs| :: p(xs[i])) ==> CountIf(xs, p) == |xs|
    ensures (forall i | 0 <= i < |xs| :: !p(xs[i])) ==> CountIf(xs, p) == 0
  {
    if xs != [] { CountAll(xs[..|xs| - 1], p); }
  }

  lemma {:induction false} CountOne<T>(xs: seq<T>, p: T -> bool) returns (i: nat)
    requires CountIf(xs, p) == 1
    ensures i < |xs| && p(xs[i]) && forall j | 0 <= j < |xs| && j != i :: !p(xs[j])
  {
    var last := |xs| - 1;
    if p(xs[last]) {
      i := last;
      CountNone(xs[..last], p);
    } else {
      i := CountOne(xs[..last], p);
    }
  }

  lemma {:induction false} CountNone<T>(xs: seq<T>, p: T -> bool)
    requires CountIf(xs, p) == 0
    ensures forall j | 0 <= j < |xs| :: !p(xs[j])
  {
    if xs != [] { CountNone(xs[..|xs| - 1], p); }
  }

  /** A handler call that was decided on and not made. */
  predicate Owes(r: Requester) { (r.Locked? || r.Notified?) && r.call }
  predicate SetterOwes(r: Setter) { r.Registered? && r.call }

  /** A request that has been made, and one that was told it is first. */
  predicate Made(r: Requester) { !r.Asking? }
  predicate WasFirst(r: Requester) { !r.Asking? && r.first }

  /** The handler is called, or about to be, once for each request after the registration, and once
      more if any came before. Exactly one request is told it is first. */
  ghost predicate Counted(s: State) {
    && s.calls + CountIf(s.requesters, Owes) + CountIf(s.setters, SetterOwes) ==
         (if s.handler then s.after + One(s.before > 0) else 0)
    && (!s.handler ==> s.after == 0)
    && s.before + s.after == CountIf(s.requesters, Made)
    && (s.requested <==> s.before + s.after > 0)
    && CountIf(s.requesters, WasFirst) == One(s.requested)
  }

  lemma RequesterCounted(s: State, i: nat, r: Requester)
    requires i < |s.requesters|
    ensures
      var rs := s.requesters[i := r];
      && CountIf(rs, Owes) + One(Owes(s.requesters[i])) == CountIf(s.requesters, Owes) + One(Owes(r))
      && CountIf(rs, Made) + One(Made(s.requesters[i])) == CountIf(s.requesters, Made) + One(Made(r))
      && CountIf(rs, WasFirst) + One(WasFirst(s.requesters[i])) == CountIf(s.requesters, WasFirst) + One(WasFirst(r))
  {
    CountUpdate(s.requesters, i, r, Owes);
    CountUpdate(s.requesters, i, r, Made);
    CountUpdate(s.requesters, i, r, WasFirst);
  }

  lemma RequestCounted(s: State, a: Step)
    requires Counted(s) && Can(s, a) && (a.RequestSection? || a.Notify? || a.RequestCall?)
    ensures Counted(Next(s, a))
  {
    RequesterCounted(s, a.i, Next(s, a).requesters[a.i]);
  }

  lemma SetterCounted(s: State, a: Step)
    requires Counted(s) && Can(s, a) && (a.SetSection? || a.SetCall?)
    ensures Counted(Next(s, a))
  {
    CountUpdate(s.setters, a.j, Next(s, a).setters[a.j], SetterOwes);
  }

  lemma NewCounted(s: State, a: Step)
    requires Counted(s) && (a.NewRequest? || a.NewSetter?)
    ensures Counted(Next(s, a))
  {
    CountMore(s.requesters, Asking, Owes);
    CountMore(s.requesters, Asking, Made);
    CountMore(s.requesters, Asking, WasFirst);
    CountMore(s.setters, Setting, SetterOwes);
  }

  lemma StepCounted(s: State, a: Step)
    requires Counted(s) && Can(s, a)
    ensures Counted(Next(s, a))
  {
    if a.RequestSection? || a.Notify? || a.RequestCall? {
      RequestCounted(s, a);
    } else if a.SetSection? || a.SetCall? {
      SetterCounted(s, a);
    } else if a.NewRequest? || a.NewSetter? {
      NewCounted(s, a);
    }
  }

  // ----- Wake-ups

  ghost predicate NotifyComes(s: State) { exists i :: 0 <= i < |s.requesters| && s.requesters[i].Locked? }

  /** A waiter sleeps unnotified under a set flag only while a notification is outstanding, and
      returns or is notified only under a set flag. */
  ghost predicate Alerted(s: State) {
    && (forall k | 0 <= k < |s.waiters| && s.waiters[k] == Asleep(false) && s.requested :: NotifyComes(s))
    && (forall k | 0 <= k < |s.waiters| && (s.waiters[k].Awake? || s.waiters[k] == Asleep(true) || s.waiters[k] == Enabled(true)) ::
          s.requested)
    && (forall i | 0 <= i < |s.requesters| && !s.requesters[i].Asking? :: s.requested)
  }

  lemma StepAlerted(s: State, a: Step)
    requires Alerted(s) && Can(s, a)
    ensures Alerted(Next(s, a))
  {
    var t := Next(s, a);
    if NotifyComes(s) && !a.Notify? {
      var i :| 0 <= i < |s.requesters| && s.requesters[i].Locked?;
      assert t.requesters[i].Locked?;
    }
    if a.RequestSection? { assert t.requesters[a.i].Locked?; }
  }

  // ----- Runs

  ghost predicate Runs(s: State, steps: seq<Step>)
    decreases |steps|
  {
    steps != [] ==> Can(s, steps[0]) && Runs(Next(s, steps[0]), steps[1..])
  }

  ghost function Final(s: State, steps: seq<Step>): State
    requires Runs(s, steps)
    decreases |steps|
  {
    if steps == [] then s else Final(Next(s, steps[0]), steps[1..])
  }

  lemma {:induction false} RunKeeps(s: State, steps: seq<Step>)
    requires Counted(s) && Alerted(s) && Runs(s, steps)
    ensures Counted(Final(s, steps)) && Alerted(Final(s, steps))
    decreases |steps|
  {
    if steps != [] {
      StepCounted(s, steps[0]);
      StepAlerted(s, steps[0]);
      RunKeeps(Next(s, steps[0]), steps[1..]);
    }
  }

  lemma InitialCounted()
    ensures Counted(Initial)
  {
  }

  lemma InitialAlerted()
    ensures Alerted(Initial)
  {
  }

  /** The state that a run from the start ends in. */
  ghost function Reached(steps: seq<Step>): (s: State)
    requires Runs(Initial, steps)
    ensures Counted(s) && Alerted(s)
  {
    InitialCounted();
    InitialAlerted();
    RunKeeps(Initial, steps);
    Final(Initial, steps)
  }

  /** Every `request` and `set_handler` that began has returned. */
  ghost predicate Settled(s: State) {
    && (forall i | 0 <= i < |s.requesters| :: s.requesters[i].Answered?)
    && (forall j | 0 <= j < |s.setters| :: s.setters[j].Done? || s.setters[j].Refused?)
  }

  /** One call for each request after the registration, and one if any came before. */
  predicate CallsMatch(s: State) {
    && s.before + s.after == |s.requesters|
    && s.calls == if s.handler then s.after + One(s.before > 0) else 0
  }

  lemma SettledCounts(s: State)
    requires Counted(s) && Settled(s)
    ensures CallsMatch(s) && CountIf(s.requesters, WasFirst) == One(s.requesters != [])
  {
    CountAll(s.requesters, Owes);
    CountAll(s.requesters, Made);
    CountAll(s.setters, SetterOwes);
  }

  /** No interrupt is lost, on any interleaving: once everybody has returned, the handler has been
      called once for each request after the registration plus once if any came before it. */
  lemma NoLostInterrupt(steps: seq<Step>)
    requires Runs(Initial, steps) && Settled(Reached(steps))
    ensures CallsMatch(Reached(steps))
  {
    SettledCounts(Reached(steps));
  }

  /** And exactly one request is answered that it is the first, if there is any. */
  lemma OneRequestIsFirst(steps: seq<Step>) returns (i: nat)
    requires Runs(Initial, steps) && Settled(Reached(steps)) && Reached(steps).requesters != []
    ensures
      var rs := Reached(steps).requesters;
      i < |rs| && rs[i] == Answered(true) && forall j | 0 <= j < |rs| && j != i :: rs[j] == Answered(false)
  {
    SettledCounts(Reached(steps));
    i := CountOne(Reached(steps).requesters, WasFirst);
  }

  /** No wake-up is lost: with a request made and no notification outstanding, no `cancelled` waiter
      sleeps unnotified; and none returns without a request. */
  lemma NoLostWakeUp(steps: seq<Step>, k: nat)
    requires Runs(Initial, steps) && k < |Reached(steps).waiters|
    ensures
      var s := Reached(steps);
      && (s.requested && !NotifyComes(s) ==> s.waiters[k] != Asleep(false))
      && (s.waiters[k].Awake? ==> s.requested)
  {
    var s := Reached(steps);
    assert Alerted(s);
  }

  /** The shared object: a flag and the handler slot. Each method is one locked section, and takes
      any state of the machine that agrees with the object to the next one. */
  class Flag {
    var requested: bool
    var handler: bool

    predicate Holds(s: State)
      reads this
    {
      requested == s.requested && handler == s.handler
    }

    constructor ()
      ensures Holds(Initial)
    {
      requested, handler := false, false;
    }

    /** The section of `request`. */
    method Request(ghost s: State, ghost i: nat) returns (first: bool, call: bool)
      requires Holds(s) && Can(s, RequestSection(i))
      modifies this
      ensures Holds(Next(s, RequestSection(i))) && Next(s, RequestSection(i)).requesters[i] == Locked(first, call)
    {
      first := !requested;
      requested := true;
      call := handler;
    }

    /** The section of `set_handler`. */
    method SetHandler(ghost s: State, ghost j: nat) returns (ok: bool, call: bool)
      requires Holds(s) && Can(s, SetSection(j))
      modifies this
      ensures Holds(Next(s, SetSection(j))) && Next(s, SetSection(j)).setters[j] == if ok then Registered(call) else Refused
    {
      if handler { return false, false; }
      handler := true;
      return true, requested;
    }
  }
}
