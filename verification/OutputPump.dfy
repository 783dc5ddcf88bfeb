/** The output pump: it takes queued events in batches and joins adjacent stream events of the same
    name inside a batch. */
module OutputPump {

  /** An event of the queue. Displays, other messages and input requests are opaque. */
  datatype Item = Stream(name: string, text: string) | Other(body: nat) | Input(prompt: nat) | Flush(mark: nat)

  predicate Joins(x: Item, y: Item) { x.Stream? && y.Stream? && x.name == y.name }

  function Join(x: Item, y: Item): Item
    requires Joins(x, y)
  {
    Stream(x.name, x.text + y.text)
  }

  /** `x` in front of `ys`, joined with the first of them if they are streams of one name. */
  function Cons(x: Item, ys: seq<Item>): seq<Item> {
    if ys != [] && Joins(x, ys[0]) then [Join(x, ys[0])] + ys[1..] else [x] + ys
  }

  /** `xs` in front of `ys`, joining as it goes. */
  function Onto(xs: seq<Item>, ys: seq<Item>): seq<Item> {
    if xs == [] then ys else Cons(xs[0], Onto(xs[1..], ys))
  }

  /** Full merging: every maximal run of streams of one name becomes one stream. */
  function Merge(xs: seq<Item>): seq<Item> { Onto(xs, []) }

  // ----- What full merging means

  /** What a client sees of the events: each character with its stream, and every other event. */
  datatype Token = Char(name: string, c: char) | Mark(item: Item)

  function Chars(name: string, text: string): seq<Token> {
    seq(|text|, i requires 0 <= i < |text| => Char(name, text[i]))
  }

  function Tokens(x: Item): seq<Token> { if x.Stream? then Chars(x.name, x.text) else [Mark(x)] }

  function Expand(xs: seq<Item>): seq<Token> { if xs == [] then [] else Tokens(xs[0]) + Expand(xs[1..]) }

  lemma {:induction false} ExpandAppend(a: seq<Item>, b: seq<Item>)
    ensures Expand(a + b) == Expand(a) + Expand(b)
  {
    if a == [] {
      assert a + b == b;
    } else {
      assert (a + b)[1..] == a[1..] + b;
      ExpandAppend(a[1..], b);
    }
  }

  lemma ExpandHead(x: Item, ys: seq<Item>)
    ensures Expand([x] + ys) == Tokens(x) + Expand(ys)
  {
    assert ([x] + ys)[1..] == ys;
  }

  lemma ExpandCons(x: Item, ys: seq<Item>)
    ensures Expand(Cons(x, ys)) == Tokens(x) + Expand(ys)
  {
    if ys != [] && Joins(x, ys[0]) {
      ExpandHead(Join(x, ys[0]), ys[1..]);
      TokensJoin(x, ys[0]);
    } else {
      ExpandHead(x, ys);
    }
  }

  lemma TokensJoin(x: Item, y: Item)
    requires Joins(x, y)
    ensures Tokens(Join(x, y)) == Tokens(x) + Tokens(y)
  {
  }

  /** Merging loses, reorders and renames nothing, and moves nothing past another event. */
  lemma {:induction false} MergeKeepsTokens(xs: seq<Item>)
    ensures Expand(Merge(xs)) == Expand(xs)
  {
    if xs != [] {
      MergeKeepsTokens(xs[1..]);
      ExpandCons(xs[0], Merge(xs[1..]));
    }
  }

  /** Nothing is left to merge: no two neighbours are text of the same stream. */
  predicate Normal(xs: seq<Item>) {
    forall i | 0 <= i < |xs| - 1 :: !(xs[i].Stream? && xs[i + 1].Stream? && xs[i].name == xs[i + 1].name)
  }

  lemma {:induction false} MergeIsNormal(xs: seq<Item>)
    ensures Normal(Merge(xs))
  {
    if xs != [] {
      MergeIsNormal(xs[1..]);
      var ys := Merge(xs[1..]);
      var zs := Cons(xs[0], ys);
      forall i | 0 <= i < |zs| - 1 ensures !Joins(zs[i], zs[i + 1]) {
        if ys != [] && Joins(xs[0], ys[0]) {
          assert zs[i + 1] == ys[i + 1];
          assert !Joins(ys[i], ys[i + 1]);
        } else if i > 0 {
          assert zs[i] == ys[i - 1] && zs[i + 1] == ys[i];
          assert !Joins(ys[i - 1], ys[i]);
        }
      }
    }
  }

  // ----- Batching

  lemma ConsTwice(x: Item, y: Item, zs: seq<Item>)
    requires Joins(x, y)
    ensures Cons(x, Cons(y, zs)) == Cons(Join(x, y), zs)
  {
    if zs != [] && Joins(y, zs[0]) {
      assert x.text + (y.text + zs[0].text) == (x.text + y.text) + zs[0].text;
    } else {
      assert ([y] + zs)[1..] == zs;
    }
  }

  lemma {:induction false} OntoMerged(xs: seq<Item>, ys: seq<Item>)
    ensures Onto(Merge(xs), ys) == Onto(xs, ys)
  {
    if xs != [] {
      var x, m := xs[0], Merge(xs[1..]);
      OntoMerged(xs[1..], ys);
      if m != [] && Joins(x, m[0]) {
        ConsTwice(x, m[0], Onto(m[1..], ys));
        assert Cons(x, m)[1..] == m[1..];
      } else {
        assert ([x] + m)[1..] == m;
      }
    }
  }

  lemma {:induction false} OntoAppend(a: seq<Item>, b: seq<Item>, ys: seq<Item>)
    ensures Onto(a + b, ys) == Onto(a, Onto(b, ys))
  {
    if a == [] {
      assert a + b == b;
    } else {
      assert (a + b)[1..] == a[1..] + b;
      OntoAppend(a[1..], b, ys);
    }
  }

  function Flat(batches: seq<seq<Item>>): seq<Item> { if batches == [] then [] else batches[0] + Flat(batches[1..]) }

  /** What the pump publishes, acknowledges and asks for, batch by batch. */
  function Pumped(batches: seq<seq<Item>>): seq<Item> {
    if batches == [] then [] else Merge(batches[0]) + Pumped(batches[1..])
  }

  /** Batching independence: for every way of cutting the queue into batches, fully merging the
      pump's output gives the same sequence as fully merging the emitted events. */
  lemma {:induction false} BatchingIsInvisible(batches: seq<seq<Item>>)
    ensures Merge(Pumped(batches)) == Merge(Flat(batches))
  {
    if batches != [] {
      var b, rest := batches[0], batches[1..];
      BatchingIsInvisible(rest);
      OntoAppend(Merge(b), Pumped(rest), []);
      OntoMerged(b, Merge(Pumped(rest)));
      OntoAppend(b, Flat(rest), []);
    }
  }

  /** So the client sees the same characters and events in the same order. */
  lemma PumpKeepsTokens(batches: seq<seq<Item>>)
    ensures Expand(Pumped(batches)) == Expand(Flat(batches))
  {
    BatchingIsInvisible(batches);
    MergeKeepsTokens(Pumped(batches));
    MergeKeepsTokens(Flat(batches));
  }

  // ----- The loops

  lemma MergeAlone(x: Item, rest: seq<Item>)
    requires rest == [] || !Joins(x, rest[0])
    ensures Merge([x] + rest) == [x] + Merge(rest)
  {
    assert ([x] + rest)[1..] == rest;
    if rest != [] {
      var m := Merge(rest[1..]);
      assert Merge(rest) == Cons(rest[0], m);
    }
  }

  lemma MergeJoined(x: Item, y: Item, rest: seq<Item>)
    requires Joins(x, y)
    ensures Merge([x, y] + rest) == Merge([Join(x, y)] + rest)
  {
    assert ([x, y] + rest)[1..] == [y] + rest;
    assert ([y] + rest)[1..] == rest;
    assert ([Join(x, y)] + rest)[1..] == rest;
    assert Merge([x, y] + rest) == Cons(x, Merge([y] + rest)) == Cons(x, Cons(y, Merge(rest)));
    ConsTwice(x, y, Merge(rest));
  }

  /** The next event joins the message in hand. */
  lemma Absorb(out: seq<Item>, message: Item, batch: seq<Item>, i: nat)
    requires i < |batch| && Joins(message, batch[i])
    ensures out + Merge([message] + batch[i..]) == out + Merge([Join(message, batch[i])] + batch[i + 1..])
  {
    assert [message] + batch[i..] == [message, batch[i]] + batch[i + 1..];
    MergeJoined(message, batch[i], batch[i + 1..]);
  }

  /** The message in hand is published. */
  lemma Emit(out: seq<Item>, message: Item, rest: seq<Item>)
    requires rest == [] || !Joins(message, rest[0])
    ensures out + Merge([message] + rest) == (out + [message]) + Merge(rest)
  {
    MergeAlone(message, rest);
    assert out + ([message] + Merge(rest)) == (out + [message]) + Merge(rest);
  }

  /** The pump on one batch: the inner loop joins the streams of one name that follow each other. */
  method PumpBatch(batch: seq<Item>) returns (out: seq<Item>)
    ensures out == Merge(batch)
  {
    out := [];
    var i := 0;
    assert batch[0..] == batch;
    while i < |batch|
      invariant i <= |batch| && out + Merge(batch[i..]) == Merge(batch)
    {
      var message := batch[i];
      assert batch[i..] == [message] + batch[i + 1..];
      i := i + 1;
      if message.Stream? {
        while i < |batch| && batch[i].Stream? && batch[i].name == message.name
          invariant i <= |batch| && message.Stream? && out + Merge([message] + batch[i..]) == Merge(batch)
        {
          Absorb(out, message, batch, i);
          message := Stream(message.name, message.text + batch[i].text);
          i := i + 1;
        }
      }
      Emit(out, message, batch[i..]);
      out := out + [message];
    }
    assert Merge(batch[i..]) == [];
  }

  // ----- Flush, and output before the reply

  /** A flush joins with nothing. */
  lemma ConsFlush(x: Item, m: seq<Item>, mark: nat, ys: seq<Item>)
    ensures Cons(x, m + [Flush(mark)] + ys) == Cons(x, m) + [Flush(mark)] + ys
  {
    var t := m + [Flush(mark)] + ys;
    if m == [] {
      assert t[0] == Flush(mark);
      assert [x] + t == [x] + [Flush(mark)] + ys;
    } else {
      assert t[0] == m[0] && t[1..] == m[1..] + [Flush(mark)] + ys;
      if Joins(x, m[0]) {
        assert [Join(x, m[0])] + t[1..] == [Join(x, m[0])] + m[1..] + [Flush(mark)] + ys;
      } else {
        assert [x] + t == [x] + m + [Flush(mark)] + ys;
      }
    }
  }

  lemma {:induction false} OntoFlush(a: seq<Item>, mark: nat, ys: seq<Item>)
    ensures Onto(a, [Flush(mark)] + ys) == Merge(a) + [Flush(mark)] + ys
  {
    if a == [] {
      assert Merge(a) + [Flush(mark)] + ys == [Flush(mark)] + ys;
    } else {
      OntoFlush(a[1..], mark, ys);
      ConsFlush(a[0], Merge(a[1..]), mark, ys);
    }
  }

  /** A flush stands between what was emitted before it and after it, in one batch ... */
  lemma MergeAroundFlush(a: seq<Item>, mark: nat, b: seq<Item>)
    ensures Merge(a + [Flush(mark)] + b) == Merge(a) + [Flush(mark)] + Merge(b)
  {
    assert a + [Flush(mark)] + b == a + ([Flush(mark)] + b);
    OntoAppend(a, [Flush(mark)] + b, []);
    MergeAlone(Flush(mark), b);
    OntoFlush(a, mark, Merge(b));
  }

  /** The flush is in the first batch. */
  lemma FlushInBatch(b: seq<Item>, rest: seq<seq<Item>>, pre: seq<Item>, mark: nat, tail: seq<Item>)
    requires b == pre + [Flush(mark)] + tail
    ensures Merge(b) + Pumped(rest) == Merge(pre) + [Flush(mark)] + (Merge(tail) + Pumped(rest))
    ensures Merge(Merge(pre)) == Merge(pre) && Merge(Merge(tail) + Pumped(rest)) == Merge(tail + Flat(rest))
  {
    MergeAroundFlush(pre, mark, tail);
    OntoMerged(pre, []);
    BatchingIsInvisible([tail] + rest);
    assert ([tail] + rest)[1..] == rest;
    assert Merge(pre) + [Flush(mark)] + Merge(tail) + Pumped(rest) == Merge(pre) + [Flush(mark)] + (Merge(tail) + Pumped(rest));
  }

  /** The flush comes after the first batch. */
  lemma FlushLater(b: seq<Item>, before: seq<Item>, mark: nat, after: seq<Item>, pre: seq<Item>)
    requires Merge(before) == Merge(pre)
    ensures Merge(b) + (before + [Flush(mark)] + after) == (Merge(b) + before) + [Flush(mark)] + after
    ensures Merge(Merge(b) + before) == Merge(b + pre)
  {
    OntoAppend(Merge(b), before, []);
    OntoMerged(b, Merge(before));
    OntoAppend(b, pre, []);
    assert Merge(b) + (before + [Flush(mark)] + after) == (Merge(b) + before) + [Flush(mark)] + after;
  }

  /** ... and for every way of cutting the queue into batches: when a flush is acknowledged, exactly
      the events ahead of it have been published. */
  lemma {:induction false} FlushIsABarrier(batches: seq<seq<Item>>, pre: seq<Item>, mark: nat, post: seq<Item>)
    returns (before: seq<Item>, after: seq<Item>)
    requires Flat(batches) == pre + [Flush(mark)] + post
    ensures Pumped(batches) == before + [Flush(mark)] + after
    ensures Merge(before) == Merge(pre) && Merge(after) == Merge(post)
  {
    var b, rest, all := batches[0], batches[1..], Flat(batches);
    if |pre| < |b| {
      var tail := b[|pre| + 1..];
      assert b[|pre|] == all[|pre|] == Flush(mark);
      assert b == pre + [Flush(mark)] + tail by { assert b[..|pre|] == all[..|pre|] == pre; }
      assert tail + Flat(rest) == post by { assert all[|pre| + 1..] == post; }
      FlushInBatch(b, rest, pre, mark, tail);
      before, after := Merge(pre), Merge(tail) + Pumped(rest);
    } else {
      var pre' := pre[|b|..];
      assert pre == b + pre' by { assert all[..|b|] == b; }
      assert Flat(rest) == pre' + [Flush(mark)] + post by { assert all[|b|..] == Flat(rest); }
      var before', after' := FlushIsABarrier(rest, pre', mark, post);
      FlushLater(b, before', mark, after', pre');
      before, after := Merge(b) + before', after';
    }
  }
}
