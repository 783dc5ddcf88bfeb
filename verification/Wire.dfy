/** The signed multipart messages of the Jupyter wire format, with the replay filter. */
module Wire {
  import opened Options

  type Bytes = seq<bv8>

  /** `<IDS|MSG>`. */
  const Delimiter: Bytes := [60, 73, 68, 83, 124, 77, 83, 71, 62]

  datatype WireError = MissingDelimiter | MissingParts | BadSignature | DuplicateSignature | Json

  datatype Result<+T> = Ok(value: T) | Err(error: WireError)

  /** Header, parent header and metadata are JSON objects `O`, the content is any JSON value `V`. */
  datatype Message<+O, +V> = Message(identities: seq<Bytes>, header: O, parent: O, metadata: O, content: V, buffers: seq<Bytes>)

  /** JSON printing and parsing, and the keyed hash in hexadecimal. */
  datatype Codec<!O, !V> = Codec(printObject: O -> Bytes, parseObject: Bytes -> Option<O>, printValue: V -> Bytes,
                                 parseValue: Bytes -> Option<V>, mac: (Bytes, Bytes) -> Bytes)

  /** Parsing undoes printing. */
  ghost predicate Lawful<O(!new), V(!new)>(c: Codec<O, V>) {
    && (forall o :: c.parseObject(c.printObject(o)) == Some(o))
    && (forall v :: c.parseValue(c.printValue(v)) == Some(v))
  }

  /** The hash runs over the four parts in turn. There is no signature without a key. */
  function Signature<O, V>(c: Codec<O, V>, key: Bytes, parts: seq<Bytes>): Bytes
    requires |parts| == 4
  {
    if key == [] then [] else c.mac(key, parts[0] + parts[1] + parts[2] + parts[3])
  }

  function Parts<O, V>(c: Codec<O, V>, m: Message<O, V>): (ps: seq<Bytes>)
    ensures |ps| == 4
  {
    [c.printObject(m.header), c.printObject(m.parent), c.printObject(m.metadata), c.printValue(m.content)]
  }

  function Encode<O, V>(c: Codec<O, V>, key: Bytes, m: Message<O, V>): seq<Bytes> {
    m.identities + [Delimiter, Signature(c, key, Parts(c, m))] + Parts(c, m) + m.buffers
  }

  /** The first delimiter, or the length. */
  function Position(frames: seq<Bytes>): (d: nat)
    ensures d <= |frames|
    ensures d < |frames| ==> frames[d] == Delimiter
    ensures forall k :: 0 <= k < d ==> frames[k] != Delimiter
  {
    if frames == [] || frames[0] == Delimiter then 0 else 1 + Position(frames[1..])
  }

  /** A delimiter with at least five frames after it. */
  predicate Framed(frames: seq<Bytes>) { Position(frames) + 6 <= |frames| }

  function SignatureFrame(frames: seq<Bytes>): Bytes
    requires Framed(frames)
  {
    frames[Position(frames) + 1]
  }

  function PartFrames(frames: seq<Bytes>): (ps: seq<Bytes>)
    requires Framed(frames)
    ensures |ps| == 4
  {
    frames[Position(frames) + 2..Position(frames) + 6]
  }

  predicate Signed<O, V>(c: Codec<O, V>, key: Bytes, frames: seq<Bytes>) {
    Framed(frames) && Signature(c, key, PartFrames(frames)) == SignatureFrame(frames)
  }

  function ParseMessage<O, V>(c: Codec<O, V>, frames: seq<Bytes>): Option<Message<O, V>>
    requires Framed(frames)
  {
    var d := Position(frames);
    var ps := PartFrames(frames);
    match (c.parseObject(ps[0]), c.parseObject(ps[1]), c.parseObject(ps[2]), c.parseValue(ps[3]))
    case (Some(header), Some(parent), Some(metadata), Some(content)) =>
      Some(Message(frames[..d], header, parent, metadata, content, frames[d + 6..]))
    case _ => None
  }

  /** `decode`: the result, and the signatures seen afterwards. A signature counts as seen before the
      JSON is looked at. */
  function Decode<O, V>(c: Codec<O, V>, key: Bytes, seen: set<Bytes>, frames: seq<Bytes>): (Result<Message<O, V>>, set<Bytes>) {
    if Position(frames) == |frames| then (Err(MissingDelimiter), seen)
    else if !Framed(frames) then (Err(MissingParts), seen)
    else if key != [] && !Signed(c, key, frames) then (Err(BadSignature), seen)
    else if key != [] && SignatureFrame(frames) in seen then (Err(DuplicateSignature), seen)
    else
      var after := if key == [] then seen else seen + {SignatureFrame(frames)};
      match ParseMessage(c, frames)
      case Some(m) => (Ok(m), after)
      case None => (Err(Json), after)
  }

  // ----- What the frames mean

  /** The four parts of a framed message in a row, as the hash reads them. */
  function Covered(f: seq<Bytes>): Bytes
    requires Position(f) + 6 <= |f|
  {
    var d := Position(f);
    f[d + 2] + f[d + 3] + f[d + 4] + f[d + 5]
  }

  /** A message with five frames or more after its first delimiter, of which the first is the keyed hash of
      the next four. */
  predicate Genuine<O, V>(c: Codec<O, V>, key: Bytes, f: seq<Bytes>) {
    Position(f) + 6 <= |f| && c.mac(key, Covered(f)) == f[Position(f) + 1]
  }

  lemma SignedIsGenuine<O, V>(c: Codec<O, V>, key: Bytes, f: seq<Bytes>)
    requires key != []
    ensures Signed(c, key, f) <==> Genuine(c, key, f)
  {
  }

  /** The layout of an encoded message: identities, delimiter, signature, header, parent header, metadata,
      content, buffers. */
  lemma EncodedLayout<O, V>(c: Codec<O, V>, key: Bytes, m: Message<O, V>)
    ensures
      var f, d := Encode(c, key, m), |m.identities|;
      && |f| == d + 6 + |m.buffers| && f[..d] == m.identities && f[d + 6..] == m.buffers
      && f[d] == [60, 73, 68, 83, 124, 77, 83, 71, 62]
      && f[d + 2] == c.printObject(m.header) && f[d + 3] == c.printObject(m.parent)
      && f[d + 4] == c.printObject(m.metadata) && f[d + 5] == c.printValue(m.content)
      && f[d + 1] == if key == [] then [] else c.mac(key, f[d + 2] + f[d + 3] + f[d + 4] + f[d + 5])
  {
  }

  /** The four parts hold JSON. */
  predicate HoldsJson<O(==), V(==)>(c: Codec<O, V>, f: seq<Bytes>)
    requires Position(f) + 6 <= |f|
  {
    var d := Position(f);
    c.parseObject(f[d + 2]).Some? && c.parseObject(f[d + 3]).Some? && c.parseObject(f[d + 4]).Some? && c.parseValue(f[d + 5]).Some?
  }

  lemma FirstDelimiter(f: seq<Bytes>)
    ensures Delimiter in f <==> Position(f) < |f|
  {
    assert Position(f) < |f| ==> f[Position(f)] == Delimiter;
  }

  lemma PartsInOrder(f: seq<Bytes>)
    requires Framed(f)
    ensures
      var ps, d := PartFrames(f), Position(f);
      ps[0] == f[d + 2] && ps[1] == f[d + 3] && ps[2] == f[d + 4] && ps[3] == f[d + 5] && SignatureFrame(f) == f[d + 1]
  {
  }

  /** What `decode` answers, error by error in the order of its checks, and what it reads from which frame. */
  lemma DecodeExactly<O, V>(c: Codec<O, V>, key: Bytes, seen: set<Bytes>, f: seq<Bytes>)
    ensures
      var (r, after) := Decode(c, key, seen, f);
      var d := Position(f);
      if Delimiter !in f then r == Err(MissingDelimiter) && after == seen
      else if |f| < d + 6 then r == Err(MissingParts) && after == seen
      else if key != [] && c.mac(key, Covered(f)) != f[d + 1] then r == Err(BadSignature) && after == seen
      else if key != [] && f[d + 1] in seen then r == Err(DuplicateSignature) && after == seen
      else
        && after == (if key == [] then seen else seen + {f[d + 1]})
        && match (c.parseObject(f[d + 2]), c.parseObject(f[d + 3]), c.parseObject(f[d + 4]), c.parseValue(f[d + 5]))
           case (Some(header), Some(parent), Some(metadata), Some(content)) =>
             r == Ok(Message(f[..d], header, parent, metadata, content, f[d + 6..]))
           case _ => r == Err(Json)
  {
    FirstDelimiter(f);
    if key != [] { SignedIsGenuine(c, key, f); }
    if Framed(f) { PartsInOrder(f); }
  }

  /** If the keyed hash of different bytes differs, a signature vouches for all four parts: a message that
      bears the signature of a genuine one and differs in its parts is refused. */
  lemma TamperedIsRefused<O, V>(c: Codec<O, V>, key: Bytes, seen: set<Bytes>, f: seq<Bytes>, g: seq<Bytes>)
    requires key != [] && forall x, y :: c.mac(key, x) == c.mac(key, y) ==> x == y
    requires Genuine(c, key, f) && Position(g) + 6 <= |g| && g[Position(g) + 1] == f[Position(f) + 1] && Covered(g) != Covered(f)
    ensures Decode(c, key, seen, g).0 == Err(BadSignature)
  {
    SignedIsGenuine(c, key, g);
    assert c.mac(key, Covered(g)) != c.mac(key, Covered(f));
  }

  // ----- Round trip

  lemma PositionIs(frames: seq<Bytes>, d: nat)
    requires d < |frames| && frames[d] == Delimiter && forall k :: 0 <= k < d ==> frames[k] != Delimiter
    ensures Position(frames) == d
  {
  }

  lemma EncodedParts<O, V>(c: Codec<O, V>, key: Bytes, m: Message<O, V>)
    requires Delimiter !in m.identities
    ensures
      var f := Encode(c, key, m);
      && Position(f) == |m.identities| && Framed(f) && f[..Position(f)] == m.identities
      && PartFrames(f) == Parts(c, m) && SignatureFrame(f) == Signature(c, key, Parts(c, m))
      && f[Position(f) + 6..] == m.buffers
  {
    var f, d := Encode(c, key, m), |m.identities|;
    assert forall k :: 0 <= k < d ==> f[k] == m.identities[k];
    assert f[d] == Delimiter;
    PositionIs(f, d);
    assert f[d + 2..d + 6] == Parts(c, m);
  }

  /** Decoding undoes encoding exactly when no identity is the delimiter and, under a key, the
      signature is new. Buffers may hold anything. */
  lemma RoundTrip<O(!new), V(!new)>(c: Codec<O, V>, key: Bytes, seen: set<Bytes>, m: Message<O, V>)
    requires Lawful(c)
    ensures Decode(c, key, seen, Encode(c, key, m)).0 == Ok(m) <==>
            Delimiter !in m.identities && (key == [] || Signature(c, key, Parts(c, m)) !in seen)
  {
    if Delimiter !in m.identities {
      EncodedParts(c, key, m);
    } else {
      var f := Encode(c, key, m);
      var k :| 0 <= k < |m.identities| && m.identities[k] == Delimiter;
      assert f[k] == Delimiter;
      assert Position(f) < |m.identities|;
    }
  }

  // ----- Replays

  /** The results of decoding messages one after another, in the order of the replay lock. */
  function DecodeAll<O, V>(c: Codec<O, V>, key: Bytes, seen: set<Bytes>, inputs: seq<seq<Bytes>>): (rs: seq<Result<Message<O, V>>>)
    ensures |rs| == |inputs|
    decreases |inputs|
  {
    if inputs == [] then []
    else
      var (r, after) := Decode(c, key, seen, inputs[0]);
      [r] + DecodeAll(c, key, after, inputs[1..])
  }

  /** The signature of this input was used by an earlier genuine one, or before the run. */
  ghost predicate Used<O, V>(c: Codec<O, V>, key: Bytes, seen: set<Bytes>, inputs: seq<seq<Bytes>>, j: nat)
    requires j < |inputs| && Position(inputs[j]) + 6 <= |inputs[j]|
  {
    var s := inputs[j][Position(inputs[j]) + 1];
    s in seen || exists i :: 0 <= i < j && Genuine(c, key, inputs[i]) && inputs[i][Position(inputs[i]) + 1] == s
  }

  /** What `decode` accepts, over a whole run: an input with all its parts and JSON in them, which under a
      key is genuine and bears a signature that no earlier genuine input used. */
  lemma {:induction false} AcceptedExactly<O, V>(c: Codec<O, V>, key: Bytes, seen: set<Bytes>, inputs: seq<seq<Bytes>>, j: nat)
    requires j < |inputs|
    ensures
      var f := inputs[j];
      DecodeAll(c, key, seen, inputs)[j].Ok? <==>
        && Position(f) + 6 <= |f| && HoldsJson(c, f)
        && (key == [] || (Genuine(c, key, f) && !Used(c, key, seen, inputs, j)))
    decreases j
  {
    if j == 0 {
      DecodeExactly(c, key, seen, inputs[0]);
    } else {
      var after := Decode(c, key, seen, inputs[0]).1;
      AcceptedExactly(c, key, after, inputs[1..], j - 1);
      if key != [] && Framed(inputs[j]) { UsedShift(c, key, seen, inputs, j); }
    }
  }

  lemma UsedShift<O, V>(c: Codec<O, V>, key: Bytes, seen: set<Bytes>, inputs: seq<seq<Bytes>>, j: nat)
    requires key != [] && 0 < j < |inputs| && Framed(inputs[j])
    ensures Framed(inputs[1..][j - 1])
    ensures Used(c, key, seen, inputs, j) <==> Used(c, key, Decode(c, key, seen, inputs[0]).1, inputs[1..], j - 1)
  {
    var rest := inputs[1..];
    assert rest[j - 1] == inputs[j];
    DecodeExactly(c, key, seen, inputs[0]);
    var s := SignatureFrame(inputs[j]);
    if i :| 0 < i < j && Genuine(c, key, inputs[i]) && SignatureFrame(inputs[i]) == s {
      assert rest[i - 1] == inputs[i];
    }
    if i :| 0 <= i < j - 1 && Genuine(c, key, rest[i]) && SignatureFrame(rest[i]) == s {
      assert inputs[i + 1] == rest[i];
    }
  }

  /** Under a key no two accepted messages of a run bear the same signature. */
  lemma NoReplayIsAccepted<O, V>(c: Codec<O, V>, key: Bytes, seen: set<Bytes>, inputs: seq<seq<Bytes>>, i: nat, j: nat)
    requires key != [] && i < j < |inputs|
    requires DecodeAll(c, key, seen, inputs)[i].Ok? && DecodeAll(c, key, seen, inputs)[j].Ok?
    ensures Framed(inputs[i]) && Framed(inputs[j]) && SignatureFrame(inputs[i]) != SignatureFrame(inputs[j])
  {
    AcceptedExactly(c, key, seen, inputs, i);
    AcceptedExactly(c, key, seen, inputs, j);
  }

  /** A session: its key, and the signatures it has seen, updated in place. */
  class Session<!O, !V> {
    const codec: Codec<O, V>
    const key: Bytes
    var seen: set<Bytes>

    constructor (codec: Codec<O, V>, key: Bytes)
      ensures this.codec == codec && this.key == key && seen == {}
    {
      this.codec, this.key := codec, key;
      seen := {};
    }

    method Receive(frames: seq<Bytes>) returns (r: Result<Message<O, V>>)
      modifies this
      ensures (r, seen) == Decode(codec, key, old(seen), frames)
    {
      var d := Position(frames);
      if d == |frames| { return Err(MissingDelimiter); }
      if |frames| < d + 6 { return Err(MissingParts); }
      var signature, parts := frames[d + 1], frames[d + 2..d + 6];
      if key != [] {
        if Signature(codec, key, parts) != signature { return Err(BadSignature); }
        if signature in seen { return Err(DuplicateSignature); }
        seen := seen + {signature};
      }
      match ParseMessage(codec, frames) {
        case Some(m) => return Ok(m);
        case None => return Err(Json);
      }
    }
  }
}
