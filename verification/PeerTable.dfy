/** The table of stdin peers by identity: connections insert and remove themselves, and `wait` sleeps
    until its identity appears. */
module PeerTable {

  type Id = string

  /** A connection: not registered yet, registered with its notification outstanding, running, or
      torn down. */
  datatype Stage = New | Inserted | Running | Gone

  datatype Connection = Connection(id: Id, stage: Stage)

  /** `wait` for an identity. `notified` says that a notification has come since it was enabled. */
  datatype Waiter = Starting(id: Id) | Enabled(id: Id, notified: bool) | Asleep(id: Id, notified: bool) | Got(id: Id, connection: nat)

  /** `peers` is the table. `last` remembers the connection inserted last for each identity. */
  datatype State = State(peers: map<Id, nat>, connections: seq<Connection>, waiters: seq<Waiter>, last: map<Id, nat>)

  const Initial := State(map[], [], [], map[])

  datatype Step =
    | Connect(id: Id) | Insert(c: nat) | Notify(c: nat) | Remove(c: nat)
    | Wait(id: Id) | Enable(k: nat) | Look(k: nat) | Wake(k: nat)

  predicate Can(s: State, a: Step) {
    match a
    case Connect(_) => true
    case Insert(c) => c < |s.connections| && s.connections[c].stage.New?
    case Notify(c) => c < |s.connections| && s.connections[c].stage.Inserted?
    case Remove(c) => c < |s.connections| && s.connections[c].stage.Running?
    case Wait(_) => true
    case Enable(k) => k < |s.waiters| && s.waiters[k].Starting?
    case Look(k) => k < |s.waiters| && s.waiters[k].Enabled?
    case Wake(k) => k < |s.waiters| && s.waiters[k].Asleep? && s.waiters[k].notified
  }

  function Alert(w: Waiter): Waiter {
    match w
    case Enabled(id, _) => Enabled(id, true)
    case Asleep(id, _) => Asleep(id, true)
    case _ => w
  }

  function AlertAll(ws: seq<Waiter>): (rs: seq<Waiter>)
    ensures |rs| == |ws| && forall k | 0 <= k < |ws| :: rs[k] == Alert(ws[k])
  {
    seq(|ws|, k requires 0 <= k < |ws| => Alert(ws[k]))
  }

  /** `RouterPeers::remove`: only the connection's own entry. */
  function Removed(peers: map<Id, nat>, id: Id, c: nat): map<Id, nat> {
    if id in peers && peers[id] == c then peers - {id} else peers
  }

  function Next(s: State, a: Step): State
    requires Can(s, a)
  {
    match a
    case Connect(id) => s.(connections := s.connections + [Connection(id, New)])
    case Insert(c) =>
      var id := s.connections[c].id;
      s.(connections := s.connections[c := Connection(id, Inserted)], peers := s.peers[id := c], last := s.last[id := c])
    case Notify(c) =>
      s.(connections := s.connections[c := Connection(s.connections[c].id, Running)], waiters := AlertAll(s.waiters))
    case Remove(c) =>
      var id := s.connections[c].id;
      s.(connections := s.connections[c := Connection(id, Gone)], peers := Removed(s.peers, id, c))
    case Wait(id) => s.(waiters := s.waiters + [Starting(id)])
    case Enable(k) => s.(waiters := s.waiters[k := Enabled(s.waiters[k].id, false)])
    case Look(k) =>
      var w := s.waiters[k];
      s.(waiters := s.waiters[k := if w.id in s.peers then Got(w.id, s.peers[w.id]) else Asleep(w.id, w.notified)])
    case Wake(k) => s.(waiters := s.waiters[k := Starting(s.waiters[k].id)])
  }

  /** The table holds an identity exactly while the connection inserted last for it is not torn
      down, and then it holds that connection. */
  ghost predicate Current(s: State) {
    && (forall id | id in s.last :: s.last[id] < |s.connections| && s.connections[s.last[id]].id == id
                                    && !s.connections[s.last[id]].stage.New?)
    && (forall id :: id in s.peers <==> id in s.last && s.last[id] < |s.connections| && !s.connections[s.last[id]].stage.Gone?)
    && (forall id | id in s.peers :: s.peers[id] == s.last[id])
  }

  /** A waiter sleeps unnotified although its identity is in the table only while the notification of
      that very connection is outstanding. */
  ghost predicate Alerted(s: State) {
    forall k | 0 <= k < |s.waiters| && s.waiters[k].Asleep? && !s.waiters[k].notified && s.waiters[k].id in s.peers ::
      s.peers[s.waiters[k].id] < |s.connections| && s.connections[s.peers[s.waiters[k].id]].stage.Inserted?
  }

  lemma StepCurrent(s: State, a: Step)
    requires Current(s) && Can(s, a)
    ensures Current(Next(s, a))
  {
  }

  lemma StepAlerted(s: State, a: Step)
    requires Current(s) && Alerted(s) && Can(s, a)
    ensures Alerted(Next(s, a))
  {
  }

  ghost predicate Runs(s: State, steps: seq<Step>)
    decreases |steps|
  {
    steps != [] ==> Can(s, steps[0]) && Runs(Next(s, steps[0]), steps[1..])
  }

  ghost function Final(s: State, steps: seq<Step>): State
    requires Runs(s, steps)
    decreases |steps|
  {
    if steps == [] then s else Final(Next(s, steps[0]), steps[1..])
  }

  lemma {:induction false} RunKeeps(s: State, steps: seq<Step>)
    requires Current(s) && Alerted(s) && Runs(s, steps)
    ensures Current(Final(s, steps)) && Alerted(Final(s, steps))
    decreases |steps|
  {
    if steps != [] {
      StepCurrent(s, steps[0]);
      StepAlerted(s, steps[0]);
      RunKeeps(Next(s, steps[0]), steps[1..]);
    }
  }

  /** The table over every interleaving of connections that come and go. */
  lemma TableFollowsLastConnection(steps: seq<Step>, id: Id)
    requires Runs(Initial, steps)
    ensures
      var s := Final(Initial, steps);
      && (id in s.peers <==> id in s.last && s.last[id] < |s.connections| && !s.connections[s.last[id]].stage.Gone?)
      && (id in s.peers ==> s.peers[id] == s.last[id])
  {
    RunKeeps(Initial, steps);
  }

  /** What `wait` returns: at its look, the connection that was inserted last for the identity it waits
      for, which is not torn down. If there is none, it goes to sleep. */
  lemma WaitReturnsLast(steps: seq<Step>, k: nat)
    requires Runs(Initial, steps) && Can(Final(Initial, steps), Look(k))
    ensures
      var s := Final(Initial, steps);
      var id, w := s.waiters[k].id, Next(s, Look(k)).waiters[k];
      && (w.Got? || w.Asleep?) && w.id == id
      && (w.Got? <==> id in s.last && s.last[id] < |s.connections| && !s.connections[s.last[id]].stage.Gone?)
      && (w.Got? ==> w.connection == s.last[id] && s.connections[w.connection].id == id)
      && (w.Asleep? ==> w.notified == s.waiters[k].notified)
  {
    RunKeeps(Initial, steps);
    LookIsLast(Final(Initial, steps), k);
  }

  lemma LookIsLast(s: State, k: nat)
    requires Current(s) && Can(s, Look(k))
    ensures
      var id, w := s.waiters[k].id, Next(s, Look(k)).waiters[k];
      && (w.Got? || w.Asleep?) && w.id == id
      && (w.Got? <==> id in s.last && s.last[id] < |s.connections| && !s.connections[s.last[id]].stage.Gone?)
      && (w.Got? ==> w.connection == s.last[id] && s.connections[w.connection].id == id)
      && (w.Asleep? ==> w.notified == s.waiters[k].notified)
  {
  }

  /** The teardown of an old connection never evicts its successor. */
  lemma TeardownSparesSuccessor(s: State, c: nat, id: Id)
    requires Current(s) && Can(s, Remove(c)) && id in s.peers && s.peers[id] != c
    ensures id in Next(s, Remove(c)).peers && Next(s, Remove(c)).peers[id] == s.peers[id]
  {
  }

  /** No `wait` caller sleeps through the arrival of its peer. */
  lemma NoLostPeer(steps: seq<Step>, k: nat)
    requires Runs(Initial, steps) && k < |Final(Initial, steps).waiters|
    ensures
      var s := Final(Initial, steps);
      var w := s.waiters[k];
      w.Asleep? && w.id in s.peers ==>
        w.notified || (s.peers[w.id] < |s.connections| && s.connections[s.peers[w.id]].stage.Inserted?)
  {
    RunKeeps(Initial, steps);
  }

  /** The table object, updated in place under its lock: each method takes any state of the machine
      with this table to the next one. */
  class RouterPeers {
    var peers: map<Id, nat>

    constructor ()
      ensures peers == Initial.peers
    {
      peers := map[];
    }

    method Insert(id: Id, connection: nat, ghost s: State)
      requires peers == s.peers && Can(s, Step.Insert(connection)) && s.connections[connection].id == id
      modifies this
      ensures peers == Next(s, Step.Insert(connection)).peers
    {
      peers := peers[id := connection];
    }

    method Remove(id: Id, connection: nat, ghost s: State)
      requires peers == s.peers && Can(s, Step.Remove(connection)) && s.connections[connection].id == id
      modifies this
      ensures peers == Next(s, Step.Remove(connection)).peers
    {
      if id in peers && peers[id] == connection { peers := peers - {id}; }
    }

    /** The lookup in `wait`: the connection, or sleep. */
    method Get(ghost s: State, ghost k: nat, id: Id, notified: bool) returns (w: Waiter)
      requires peers == s.peers && Can(s, Look(k)) && s.waiters[k] == Enabled(id, notified)
      ensures w == Next(s, Look(k)).waiters[k]
    {
      if id in peers { return Got(id, peers[id]); }
      return Asleep(id, notified);
    }
  }
}
