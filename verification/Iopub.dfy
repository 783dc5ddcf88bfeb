/** The iopub broadcast: one vector of peer channels that `publish` walks and shrinks in place. */
module Iopub {

  /** `peers` are the channels in the vector and `queues` what each has ever accepted. `log` is
      everything published. `joined` and `left` are positions in it: of a peer's arrival, and of the
      first message its channel refused. */
  datatype Hub<M> = Hub(peers: set<nat>, queues: map<nat, seq<M>>, joined: map<nat, nat>, left: map<nat, nat>, log: seq<M>)

  function Empty<M>(): Hub<M> { Hub({}, map[], map[], map[], []) }

  /** A connection joins, or a message is published while the channels in `gone` are closed. */
  datatype Step<M> = Join(peer: nat) | Publish(message: M, gone: set<nat>)

  predicate Can<M>(h: Hub<M>, a: Step<M>) { a.Join? ==> a.peer !in h.queues }

  function Sent<M>(queues: map<nat, seq<M>>, receivers: set<nat>, message: M): map<nat, seq<M>> {
    map p | p in queues :: if p in receivers then queues[p] + [message] else queues[p]
  }

  function Next<M>(h: Hub<M>, a: Step<M>): Hub<M>
    requires Can(h, a)
  {
    match a
    case Join(p) => h.(peers := h.peers + {p}, queues := h.queues[p := []], joined := h.joined[p := |h.log|])
    case Publish(message, gone) =>
      Hub(h.peers - gone, Sent(h.queues, h.peers - gone, message), h.joined,
          map p | p in h.left.Keys + h.peers * gone :: if p in h.left then h.left[p] else |h.log|, h.log + [message])
  }

  /** A peer holds exactly the log from its arrival to the first message its channel refused. */
  ghost predicate Broadcast<M>(h: Hub<M>) {
    && h.queues.Keys == h.joined.Keys == h.peers + h.left.Keys && h.peers !! h.left.Keys
    && (forall p | p in h.peers :: h.joined[p] <= |h.log| && h.queues[p] == h.log[h.joined[p]..])
    && (forall p | p in h.left :: h.joined[p] <= h.left[p] <= |h.log| && h.queues[p] == h.log[h.joined[p]..h.left[p]])
  }

  lemma JoinBroadcasts<M>(h: Hub<M>, p: nat)
    requires Broadcast(h) && p !in h.queues
    ensures Broadcast(Next(h, Join(p)))
  {
    assert h.log[|h.log|..] == [];
  }

  lemma PublishBroadcasts<M>(h: Hub<M>, message: M, gone: set<nat>)
    requires Broadcast(h)
    ensures Broadcast(Next(h, Publish(message, gone)))
  {
    var t := Next(h, Publish(message, gone));
    forall p | p in t.peers
      ensures t.joined[p] <= |t.log| && t.queues[p] == t.log[t.joined[p]..]
    {
      assert h.log[h.joined[p]..] + [message] == t.log[t.joined[p]..];
    }
    forall p | p in t.left
      ensures t.joined[p] <= t.left[p] <= |t.log| && t.queues[p] == t.log[t.joined[p]..t.left[p]]
    {
      assert t.queues[p] == h.queues[p];
    }
  }

  lemma StepBroadcasts<M>(h: Hub<M>, a: Step<M>)
    requires Broadcast(h) && Can(h, a)
    ensures Broadcast(Next(h, a))
  {
    match a {
      case Join(p) => JoinBroadcasts(h, p);
      case Publish(message, gone) => PublishBroadcasts(h, message, gone);
    }
  }

  ghost predicate Runs<M>(h: Hub<M>, steps: seq<Step<M>>)
    decreases |steps|
  {
    steps != [] ==> Can(h, steps[0]) && Runs(Next(h, steps[0]), steps[1..])
  }

  ghost function Final<M>(h: Hub<M>, steps: seq<Step<M>>): Hub<M>
    requires Runs(h, steps)
    decreases |steps|
  {
    if steps == [] then h else Final(Next(h, steps[0]), steps[1..])
  }

  lemma {:induction false} RunBroadcasts<M>(h: Hub<M>, steps: seq<Step<M>>)
    requires Broadcast(h) && Runs(h, steps)
    ensures Broadcast(Final(h, steps))
    decreases |steps|
  {
    if steps != [] {
      StepBroadcasts(h, steps[0]);
      RunBroadcasts(Next(h, steps[0]), steps[1..]);
    }
  }

  /** Over every run: a live peer has received exactly what was published since it joined, a departed
      one exactly what was published up to its departure, and any two live peers have received the
      same messages in the same order from the later arrival on. */
  lemma PeersShareOneOrder<M>(steps: seq<Step<M>>, p: nat, q: nat)
    requires Runs(Empty<M>(), steps)
    ensures
      var h := Final(Empty<M>(), steps);
      && Broadcast(h)
      && (p in h.peers && q in h.peers && h.joined[p] <= h.joined[q] && h.joined[q] <= |h.log| ==>
            h.joined[q] - h.joined[p] <= |h.queues[p]| && h.queues[q] == h.queues[p][h.joined[q] - h.joined[p]..])
  {
    RunBroadcasts(Empty<M>(), steps);
  }

  // ----- The loop

  predicate Distinct(s: seq<nat>) { forall i, j | 0 <= i < j < |s| :: s[i] != s[j] }

  /** Remove an element by moving the last one into its place. */
  function SwapRemove(s: seq<nat>, i: nat): seq<nat>
    requires i < |s|
  {
    s[i := s[|s| - 1]][..|s| - 1]
  }

  lemma SwapRemoveDropsOne(s: seq<nat>, i: nat)
    requires i < |s| && Distinct(s)
    ensures Distinct(SwapRemove(s, i)) && SwapRemove(s, i)[..i] == s[..i]
    ensures forall p :: p in SwapRemove(s, i) <==> p in s && p != s[i]
  {
    var t := SwapRemove(s, i);
    forall p | p in s && p != s[i]
      ensures p in t
    {
      var k :| 0 <= k < |s| && s[k] == p;
      assert if k == |s| - 1 then t[i] == p else t[k] == p;
    }
  }

  function Elements(s: seq<nat>): set<nat> { set p | p in s }

  /** What `publish` has done when it comes to position `i`: the peers before it have taken the message,
      those from it on have not been asked, and those that are missing are gone. */
  ghost predicate Walked<M>(peers: seq<nat>, queues: map<nat, seq<M>>, message: M, gone: set<nat>,
                            live: seq<nat>, sent: map<nat, seq<M>>, i: nat) {
    && i <= |live| && Distinct(live) && (forall p :: p in live ==> p in peers) && (forall p :: p in peers ==> p in live || p in gone)
    && (forall k :: 0 <= k < i ==> live[k] !in gone)
    && sent.Keys == queues.Keys
    && (forall p | p in queues :: sent[p] == if p in live[..i] then queues[p] + [message] else queues[p])
  }

  lemma WalkPast<M>(peers: seq<nat>, queues: map<nat, seq<M>>, message: M, gone: set<nat>,
                    live: seq<nat>, sent: map<nat, seq<M>>, i: nat)
    requires Walked(peers, queues, message, gone, live, sent, i) && i < |live| && live[i] !in gone && live[i] in queues
    ensures Walked(peers, queues, message, gone, live, sent[live[i] := sent[live[i]] + [message]], i + 1)
  {
    assert live[..i + 1] == live[..i] + [live[i]];
  }

  lemma WalkOut<M>(peers: seq<nat>, queues: map<nat, seq<M>>, message: M, gone: set<nat>,
                   live: seq<nat>, sent: map<nat, seq<M>>, i: nat)
    requires Walked(peers, queues, message, gone, live, sent, i) && i < |live| && live[i] in gone
    ensures Walked(peers, queues, message, gone, SwapRemove(live, i), sent, i)
  {
    SwapRemoveDropsOne(live, i);
  }

  lemma WalkEnds<M>(peers: seq<nat>, queues: map<nat, seq<M>>, message: M, gone: set<nat>,
                    live: seq<nat>, sent: map<nat, seq<M>>)
    requires Walked(peers, queues, message, gone, live, sent, |live|)
    ensures Elements(live) == Elements(peers) - gone && sent == Sent(queues, Elements(peers) - gone, message)
  {
    assert live[..|live|] == live;
    forall p | p in live ensures p !in gone {
      var k :| 0 <= k < |live| && live[k] == p;
    }
    assert forall p :: p in Elements(live) <==> p in Elements(peers) - gone;
  }

  /** The walk of `publish`: a peer that fails is swapped out and its slot looked at again. Every peer
      is offered the message exactly once. */
  method Walk<M>(peers: seq<nat>, queues: map<nat, seq<M>>, message: M, gone: set<nat>)
    returns (live: seq<nat>, sent: map<nat, seq<M>>)
    requires Distinct(peers) && Elements(peers) <= queues.Keys
    ensures Distinct(live) && Elements(live) == Elements(peers) - gone
    ensures sent == Sent(queues, Elements(peers) - gone, message)
  {
    live, sent := peers, queues;
    var i := 0;
    while i < |live|
      invariant Walked(peers, queues, message, gone, live, sent, i)
      decreases |live| - i
    {
      if live[i] in gone {
        WalkOut(peers, queues, message, gone, live, sent, i);
        live := SwapRemove(live, i);
      } else {
        assert live[i] in Elements(peers);
        WalkPast(peers, queues, message, gone, live, sent, i);
        sent := sent[live[i] := sent[live[i]] + [message]];
        i := i + 1;
      }
    }
    WalkEnds(peers, queues, message, gone, live, sent);
  }

  /** The shared vector. `hub` is what it stands for. */
  class Publisher<M> {
    var peers: seq<nat>
    var queues: map<nat, seq<M>>
    ghost var hub: Hub<M>

    ghost predicate Valid()
      reads this
    {
      Distinct(peers) && Elements(peers) == hub.peers && queues == hub.queues && Broadcast(hub)
    }

    constructor ()
      ensures Valid() && hub == Empty()
    {
      peers, queues, hub := [], map[], Empty();
    }

    method Add(peer: nat)
      requires Valid() && peer !in queues
      modifies this
      ensures Valid() && hub == Next(old(hub), Join(peer))
    {
      StepBroadcasts(hub, Join(peer));
      hub := Next(hub, Join(peer));
      peers, queues := peers + [peer], queues[peer := []];
    }

    method Publish(message: M, gone: set<nat>)
      requires Valid()
      modifies this
      ensures Valid() && hub == Next(old(hub), Step.Publish(message, gone))
    {
      StepBroadcasts(hub, Step.Publish(message, gone));
      peers, queues := Walk(peers, queues, message, gone);
      hub := Next(hub, Step.Publish(message, gone));
    }
  }
}
