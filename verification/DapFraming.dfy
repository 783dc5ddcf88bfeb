/** `Content-Length` framing of debug adapter messages (the "Base Protocol" section of the Debug
    Adapter Protocol specification), on bytes. */
module DapFraming {
  import opened Options

  type Byte = n: nat | n < 256

  datatype Error = Closed | Io | Protocol

  datatype Read = Message(payload: seq<Byte>, rest: seq<Byte>) | Failed(error: Error)

  const LF: Byte := 10
  const CRLF: seq<Byte> := [13, 10]
  const SPACE: Byte := 32
  const PLUS: Byte := 43
  const USIZE_MAX: nat := 0xFFFF_FFFF_FFFF_FFFF

  /** "Content-Length:" */
  const FIELD: seq<Byte> := [67, 111, 110, 116, 101, 110, 116, 45, 76, 101, 110, 103, 116, 104, 58]

  // ----- Decimal numbers

  function Digits(n: nat): (ds: seq<Byte>)
    ensures ds != []
  {
    if n < 10 then [48 + n] else Digits(n / 10) + [48 + n % 10]
  }

  predicate IsDigit(b: Byte) { 48 <= b <= 57 }

  predicate AllDigits(ds: seq<Byte>) { forall i | 0 <= i < |ds| :: IsDigit(ds[i]) }

  function Value(ds: seq<Byte>): nat
    requires AllDigits(ds)
  {
    if ds == [] then 0
    else
      var last := ds[|ds| - 1];
      assert IsDigit(last);
      10 * Value(ds[..|ds| - 1]) + (last - 48)
  }

  function Unsigned(ds: seq<Byte>): Option<nat> {
    if ds != [] && AllDigits(ds) && Value(ds) <= USIZE_MAX then Some(Value(ds)) else None
  }

  /** `str::parse::<usize>`: an optional plus, then digits that do not overflow. */
  function Parse(text: seq<Byte>): Option<nat> {
    Unsigned(if text != [] && text[0] == PLUS then text[1..] else text)
  }

  /** Printing and parsing a number. */
  lemma {:induction false} DigitsValue(n: nat)
    ensures AllDigits(Digits(n)) && Value(Digits(n)) == n
  {
    if n >= 10 {
      DigitsValue(n / 10);
      var ds := Digits(n);
      assert ds[..|ds| - 1] == Digits(n / 10);
    }
  }

  lemma ParseDigits(n: nat)
    requires n <= USIZE_MAX
    ensures Parse(Digits(n)) == Some(n)
  {
    DigitsValue(n);
    assert IsDigit(Digits(n)[0]);
  }

  // ----- Lines

  predicate IsSpace(b: Byte) { 9 <= b <= 13 || b == SPACE }

  function TrimStart(s: seq<Byte>): seq<Byte> { if s != [] && IsSpace(s[0]) then TrimStart(s[1..]) else s }

  function TrimEnd(s: seq<Byte>): seq<Byte> {
    if s != [] && IsSpace(s[|s| - 1]) then TrimEnd(s[..|s| - 1]) else s
  }

  function Trim(s: seq<Byte>): seq<Byte> { TrimEnd(TrimStart(s)) }

  /** How much `read_line` takes: up to and including the first line feed, or everything. */
  function LineEnd(s: seq<Byte>): (n: nat)
    ensures n <= |s| && (s != [] ==> n > 0)
  {
    if s == [] then 0 else if s[0] == LF then 1 else 1 + LineEnd(s[1..])
  }

  lemma {:induction false} LineEndAt(a: seq<Byte>, b: seq<Byte>)
    requires LF !in a
    ensures LineEnd(a + [LF] + b) == |a| + 1
  {
    if a != [] {
      assert (a + [LF] + b)[1..] == a[1..] + [LF] + b;
      assert a[0] in a;
      LineEndAt(a[1..], b);
    }
  }

  lemma {:induction false} LineEndNone(a: seq<Byte>)
    requires LF !in a
    ensures LineEnd(a) == |a|
  {
    if a != [] {
      assert a[0] in a;
      LineEndNone(a[1..]);
    }
  }

  // ----- Encoding and decoding

  /** `encode_message` on the printed payload. */
  function Frame(payload: seq<Byte>): seq<Byte> { FIELD + [SPACE] + Digits(|payload|) + CRLF + CRLF + payload }

  /** The header line of a frame, without its line feed. */
  function HeaderLine(n: nat): seq<Byte> { FIELD + [SPACE] + Digits(n) + [13] }

  /** What a header line does to `read_message`. */
  datatype Effect = Blank | Bad(error: Error) | Length(length: Option<nat>)

  /** `length` is the last length seen, and `utf8` tells which lines are valid text. */
  function Classify(line: seq<Byte>, length: Option<nat>, utf8: seq<Byte> -> bool): Effect {
    if !utf8(line) then Bad(Io)
    else if line == CRLF then Blank
    else if FIELD <= line then
      var n := Parse(Trim(line[|FIELD|..]));
      if n.None? then Bad(Protocol) else Length(n)
    else Length(length)
  }

  function ReadBody(rest: seq<Byte>, length: Option<nat>): Read {
    if length.None? then Failed(Protocol)
    else if |rest| < length.value then Failed(Closed)
    else Message(rest[..length.value], rest[length.value..])
  }

  /** `read_message` up to the JSON parse, from the header line it is at. */
  function ReadFrom(stream: seq<Byte>, length: Option<nat>, utf8: seq<Byte> -> bool): Read
    decreases |stream|
  {
    if stream == [] then Failed(Closed)
    else
      var rest := stream[LineEnd(stream)..];
      match Classify(stream[..LineEnd(stream)], length, utf8)
      case Bad(error) => Failed(error)
      case Blank => ReadBody(rest, length)
      case Length(n) => ReadFrom(rest, n, utf8)
  }

  function Read1(stream: seq<Byte>, utf8: seq<Byte> -> bool): Read { ReadFrom(stream, None, utf8) }

  /** The loop of `read_message`. */
  method ReadMessage(stream: seq<Byte>, utf8: seq<Byte> -> bool) returns (r: Read)
    ensures r == Read1(stream, utf8)
  {
    var rest := stream;
    var length: Option<nat> := None;
    while rest != []
      invariant ReadFrom(rest, length, utf8) == Read1(stream, utf8)
      decreases |rest|
    {
      var taken := LineEnd(rest);
      var line := rest[..taken];
      rest := rest[taken..];
      match Classify(line, length, utf8) {
        case Bad(error) => return Failed(error);
        case Blank => return ReadBody(rest, length);
        case Length(n) => length := n;
      }
    }
    r := Failed(Closed);
  }

  predicate Ascii(s: seq<Byte>) { forall i | 0 <= i < |s| :: s[i] < 128 }

  /** Text in ASCII is valid text. */
  ghost predicate AcceptsAscii(utf8: seq<Byte> -> bool) { forall line :: Ascii(line) ==> utf8(line) }

  lemma TrimLength(n: nat)
    ensures Trim([SPACE] + Digits(n) + CRLF) == Digits(n)
  {
    DigitsValue(n);
    var ds := Digits(n);
    var s := [SPACE] + ds + CRLF;
    assert s[1..] == ds + CRLF;
    assert !IsSpace(ds[0]) && (ds + CRLF)[0] == ds[0];
    assert TrimStart(s) == ds + CRLF;
    var t := ds + CRLF;
    assert t[..|t| - 1] == ds + [13];
    assert (ds + [13])[..|ds|] == ds;
    assert IsDigit(ds[|ds| - 1]);
    assert TrimEnd(ds + [13]) == TrimEnd(ds) == ds;
  }

  lemma HeaderFacts(n: nat)
    ensures LF !in HeaderLine(n) && Ascii(HeaderLine(n) + [LF])
    ensures FIELD <= HeaderLine(n) + [LF] && (HeaderLine(n) + [LF])[|FIELD|..] == [SPACE] + Digits(n) + CRLF
    ensures HeaderLine(n) + [LF] != CRLF
  {
    DigitsValue(n);
    var ds := Digits(n);
    assert AllDigits(ds);
    assert HeaderLine(n) + [LF] == FIELD + ([SPACE] + ds + CRLF);
  }

  lemma HeaderIsLength(n: nat, utf8: seq<Byte> -> bool)
    requires n <= USIZE_MAX && AcceptsAscii(utf8)
    ensures Classify(HeaderLine(n) + [LF], None, utf8) == Length(Some(n))
  {
    HeaderFacts(n);
    TrimLength(n);
    ParseDigits(n);
    assert utf8(HeaderLine(n) + [LF]);
  }

  /** Reading the header of a frame leaves the payload. */
  lemma ReadHeader(n: nat, rest: seq<Byte>, utf8: seq<Byte> -> bool)
    requires n <= USIZE_MAX && AcceptsAscii(utf8)
    ensures Read1(HeaderLine(n) + [LF] + rest, utf8) == ReadFrom(rest, Some(n), utf8)
  {
    var s := HeaderLine(n) + [LF] + rest;
    HeaderFacts(n);
    LineEndAt(HeaderLine(n), rest);
    assert s[..LineEnd(s)] == HeaderLine(n) + [LF] && s[LineEnd(s)..] == rest;
    HeaderIsLength(n, utf8);
  }

  lemma ReadBlank(body: seq<Byte>, length: Option<nat>, utf8: seq<Byte> -> bool)
    requires utf8(CRLF)
    ensures ReadFrom(CRLF + body, length, utf8) == ReadBody(body, length)
  {
    LineEndAt([13], body);
    var s := CRLF + body;
    assert s == [13] + [LF] + body;
    assert s[..LineEnd(s)] == CRLF && s[LineEnd(s)..] == body;
  }

  /** A frame reads back as its payload, whatever bytes the payload holds and whatever follows. */
  lemma FrameReads(payload: seq<Byte>, after: seq<Byte>, utf8: seq<Byte> -> bool)
    requires |payload| <= USIZE_MAX && AcceptsAscii(utf8)
    ensures Read1(Frame(payload) + after, utf8) == Message(payload, after)
  {
    var n := |payload|;
    var body := payload + after;
    assert Frame(payload) + after == HeaderLine(n) + [LF] + (CRLF + body);
    ReadHeader(n, CRLF + body, utf8);
    assert Ascii(CRLF);
    ReadBlank(body, Some(n), utf8);
    assert body[..n] == payload && body[n..] == after;
  }

  /** A single line that is not blank, with nothing after it, is no message. */
  lemma LoneLine(line: seq<Byte>, length: Option<nat>, utf8: seq<Byte> -> bool)
    requires line != [] && LineEnd(line) == |line| && line != CRLF
    ensures ReadFrom(line, length, utf8).Failed?
  {
    assert line[..|line|] == line && line[|line|..] == [];
  }

  /** The part of a frame up to its first line feed is a header line that does not end. */
  lemma CutInHeader(n: nat, p: seq<Byte>, utf8: seq<Byte> -> bool)
    requires p <= HeaderLine(n)
    ensures Read1(p, utf8).Failed?
  {
    HeaderFacts(n);
    LineEndNone(p);
    if p != [] {
      assert p[0] == HeaderLine(n)[0] == 67;
      LoneLine(p, None, utf8);
    }
  }

  /** After the header line comes a blank line, and then too few bytes. */
  lemma CutAfterHeader(payload: seq<Byte>, rest: seq<Byte>, utf8: seq<Byte> -> bool)
    requires AcceptsAscii(utf8) && rest < CRLF + payload
    ensures ReadFrom(rest, Some(|payload|), utf8).Failed?
  {
    var whole := CRLF + payload;
    assert forall i | 0 <= i < |rest| :: rest[i] == whole[i];
    if |rest| == 1 {
      assert rest == [13];
      LineEndNone(rest);
      LoneLine(rest, Some(|payload|), utf8);
    } else if |rest| >= 2 {
      assert rest[0] == CRLF[0] && rest[1] == CRLF[1];
      assert rest == CRLF + rest[2..];
      assert Ascii(CRLF);
      ReadBlank(rest[2..], Some(|payload|), utf8);
    }
  }

  /** A strict prefix of a frame gives no message. */
  lemma StrictPrefixFails(payload: seq<Byte>, p: seq<Byte>, utf8: seq<Byte> -> bool)
    requires |payload| <= USIZE_MAX && AcceptsAscii(utf8) && p < Frame(payload)
    ensures Read1(p, utf8).Failed?
  {
    var h := HeaderLine(|payload|);
    var whole := Frame(payload);
    assert whole == (h + [LF]) + (CRLF + payload);
    if |p| <= |h| {
      assert p == whole[..|p|] == h[..|p|];
      CutInHeader(|payload|, p, utf8);
    } else {
      var rest := p[|h| + 1..];
      assert p[..|h| + 1] == whole[..|h| + 1] == h + [LF];
      assert p == h + [LF] + rest;
      assert whole[|h| + 1..] == CRLF + payload;
      assert rest == whole[|h| + 1..|p|];
      ReadHeader(|payload|, rest, utf8);
      CutAfterHeader(payload, rest, utf8);
    }
  }

  // ----- Whole streams

  function Frames(payloads: seq<seq<Byte>>): seq<Byte> {
    if payloads == [] then [] else Frame(payloads[0]) + Frames(payloads[1..])
  }

  lemma {:induction false} ReadShrinks(stream: seq<Byte>, length: Option<nat>, utf8: seq<Byte> -> bool)
    ensures ReadFrom(stream, length, utf8).Message? ==> |ReadFrom(stream, length, utf8).rest| < |stream|
    decreases |stream|
  {
    if stream != [] {
      var rest := stream[LineEnd(stream)..];
      match Classify(stream[..LineEnd(stream)], length, utf8) {
        case Length(n) => ReadShrinks(rest, n, utf8);
        case _ =>
      }
    }
  }

  /** `read_messages` as a whole: the payloads read until reading fails. */
  function ReadAll(stream: seq<Byte>, utf8: seq<Byte> -> bool): (seq<seq<Byte>>, Error)
    decreases |stream|
  {
    ReadShrinks(stream, None, utf8);
    match Read1(stream, utf8)
    case Failed(error) => ([], error)
    case Message(payload, rest) =>
      var (more, error) := ReadAll(rest, utf8);
      ([payload] + more, error)
  }

  /** Decoding the concatenation of any list of frames gives exactly that list, and then the end of
      the connection; a strict prefix of one more frame adds nothing. */
  lemma {:induction false} StreamRoundTrip(payloads: seq<seq<Byte>>, last: seq<Byte>, p: seq<Byte>, utf8: seq<Byte> -> bool)
    requires AcceptsAscii(utf8) && (forall i | 0 <= i < |payloads| :: |payloads[i]| <= USIZE_MAX)
    requires |last| <= USIZE_MAX && p < Frame(last)
    ensures ReadAll(Frames(payloads) + p, utf8).0 == payloads
    ensures p == [] ==> ReadAll(Frames(payloads) + p, utf8).1 == Closed
    decreases |payloads|
  {
    if payloads == [] {
      assert Frames(payloads) + p == p;
      StrictPrefixFails(last, p, utf8);
    } else {
      var tail := Frames(payloads[1..]) + p;
      assert Frames(payloads) + p == Frame(payloads[0]) + tail;
      FrameReads(payloads[0], tail, utf8);
      StreamRoundTrip(payloads[1..], last, p, utf8);
      assert [payloads[0]] + payloads[1..] == payloads;
    }
  }

  // ----- Which headers are read, and how

  function Zeros(k: nat): (ds: seq<Byte>)
    ensures |ds| == k && forall i | 0 <= i < k :: ds[i] == 48
  {
    seq(k, _ => 48)
  }

  lemma {:induction false} ZerosValue(k: nat)
    ensures Value(Zeros(k)) == 0
  {
    if k > 0 {
      ZerosValue(k - 1);
      assert Zeros(k)[..k - 1] == Zeros(k - 1);
    }
  }

  lemma {:induction false} PaddedValue(k: nat, n: nat)
    ensures AllDigits(Zeros(k) + Digits(n)) && Value(Zeros(k) + Digits(n)) == n
  {
    DigitsValue(n);
    var ds := Zeros(k) + Digits(n);
    if n < 10 {
      assert ds[..|ds| - 1] == Zeros(k);
      ZerosValue(k);
    } else {
      assert ds[..|ds| - 1] == Zeros(k) + Digits(n / 10);
      PaddedValue(k, n / 10);
    }
  }

  lemma {:induction false} ValueDigits(ds: seq<Byte>) returns (k: nat)
    requires ds != [] && AllDigits(ds)
    ensures ds == Zeros(k) + Digits(Value(ds))
    decreases |ds|
  {
    k := 0;
    var last := ds[|ds| - 1];
    assert IsDigit(last);
    if |ds| > 1 {
      var init := ds[..|ds| - 1];
      k := ValueDigits(init);
      assert ds == init + [last];
      if Value(init) == 0 {
        assert init == Zeros(k + 1);
        k := k + 1;
      } else {
        assert Digits(Value(ds)) == Digits(Value(init)) + [last];
      }
    }
  }

  /** How a number may be written: a plus or none, zeros, and its digits. */
  function Padded(zeros: nat, n: nat): (ds: seq<Byte>)
    ensures ds != []
  {
    Zeros(zeros) + Digits(n)
  }

  function Written(plus: bool, zeros: nat, n: nat): (text: seq<Byte>)
    ensures text != []
  {
    if plus then [PLUS] + Padded(zeros, n) else Padded(zeros, n)
  }

  lemma UnsignedIsPadded(ds: seq<Byte>) returns (zeros: nat)
    requires Unsigned(ds).Some?
    ensures ds == Padded(zeros, Unsigned(ds).value) && Unsigned(ds).value <= USIZE_MAX
  {
    zeros := ValueDigits(ds);
  }

  lemma PaddedIsUnsigned(zeros: nat, n: nat)
    requires n <= USIZE_MAX
    ensures Unsigned(Padded(zeros, n)) == Some(n) && IsDigit(Padded(zeros, n)[0])
  {
    PaddedValue(zeros, n);
  }

  /** `parse` accepts exactly the ways to write a number that fits. */
  lemma ParseExactly(text: seq<Byte>, n: nat)
    ensures Parse(text) == Some(n) <==> n <= USIZE_MAX && exists plus, zeros :: text == Written(plus, zeros, n)
  {
    if Parse(text) == Some(n) {
      if text != [] && text[0] == PLUS {
        var zeros := UnsignedIsPadded(text[1..]);
        assert text == Written(true, zeros, n);
      } else {
        var zeros := UnsignedIsPadded(text);
        assert text == Written(false, zeros, n);
      }
    }
    if n <= USIZE_MAX && exists plus, zeros :: text == Written(plus, zeros, n) {
      var plus, zeros :| text == Written(plus, zeros, n);
      PaddedIsUnsigned(zeros, n);
      if plus { assert text[1..] == Padded(zeros, n); }
    }
  }

  predicate Blanks(s: seq<Byte>) { forall i | 0 <= i < |s| :: IsSpace(s[i]) }

  /** Nothing is left to trim. */
  predicate Tight(s: seq<Byte>) { s != [] ==> !IsSpace(s[0]) && !IsSpace(s[|s| - 1]) }

  lemma {:induction false} TrimStartSplits(s: seq<Byte>) returns (a: seq<Byte>)
    ensures Blanks(a) && s == a + TrimStart(s) && (TrimStart(s) != [] ==> !IsSpace(TrimStart(s)[0]))
  {
    a := [];
    if s != [] && IsSpace(s[0]) {
      a := TrimStartSplits(s[1..]);
      a := [s[0]] + a;
    }
  }

  lemma {:induction false} TrimEndSplits(s: seq<Byte>) returns (b: seq<Byte>)
    ensures Blanks(b) && s == TrimEnd(s) + b && (TrimEnd(s) != [] ==> !IsSpace(TrimEnd(s)[|TrimEnd(s)| - 1]))
  {
    b := [];
    if s != [] && IsSpace(s[|s| - 1]) {
      b := TrimEndSplits(s[..|s| - 1]);
      b := b + [s[|s| - 1]];
    }
  }

  lemma {:induction false} TrimStartPadded(a: seq<Byte>, s: seq<Byte>)
    requires Blanks(a) && (s != [] ==> !IsSpace(s[0]))
    ensures TrimStart(a + s) == s
  {
    if a == [] {
      assert a + s == s;
    } else {
      assert (a + s)[1..] == a[1..] + s && (a + s)[0] == a[0];
      TrimStartPadded(a[1..], s);
    }
  }

  lemma {:induction false} TrimEndPadded(s: seq<Byte>, b: seq<Byte>)
    requires Blanks(b) && (s != [] ==> !IsSpace(s[|s| - 1]))
    ensures TrimEnd(s + b) == s
  {
    if b == [] {
      assert s + b == s;
    } else {
      var t := s + b;
      assert t[..|t| - 1] == s + b[..|b| - 1] && t[|t| - 1] == b[|b| - 1];
      TrimEndPadded(s, b[..|b| - 1]);
    }
  }

  /** A field's text names `n`: blanks around one of the ways to write it. */
  ghost predicate Names(text: seq<Byte>, n: nat) {
    exists a, plus, zeros, b :: Blanks(a) && Blanks(b) && text == a + Written(plus, zeros, n) + b
  }

  lemma WrittenIsTight(plus: bool, zeros: nat, n: nat)
    ensures Tight(Written(plus, zeros, n))
  {
    PaddedValue(zeros, n);
    var ds, w := Padded(zeros, n), Written(plus, zeros, n);
    assert IsDigit(ds[0]) && IsDigit(ds[|ds| - 1]) && w[|w| - 1] == ds[|ds| - 1];
  }

  lemma TrimTight(a: seq<Byte>, w: seq<Byte>, b: seq<Byte>)
    requires Blanks(a) && Blanks(b) && w != [] && Tight(w)
    ensures Trim(a + w + b) == w
  {
    assert a + w + b == a + (w + b) && (w + b)[0] == w[0];
    TrimStartPadded(a, w + b);
    TrimEndPadded(w, b);
  }

  /** The value of the field, trimmed and parsed, is `n` exactly when its text names `n`. */
  lemma FieldExactly(text: seq<Byte>, n: nat)
    ensures Parse(Trim(text)) == Some(n) <==> n <= USIZE_MAX && Names(text, n)
  {
    if Parse(Trim(text)) == Some(n) {
      var a := TrimStartSplits(text);
      var b := TrimEndSplits(TrimStart(text));
      ParseExactly(Trim(text), n);
      var plus, zeros :| Trim(text) == Written(plus, zeros, n);
      assert text == a + Written(plus, zeros, n) + b;
    }
    if n <= USIZE_MAX && Names(text, n) {
      var a, plus, zeros, b :| Blanks(a) && Blanks(b) && text == a + Written(plus, zeros, n) + b;
      WrittenIsTight(plus, zeros, n);
      TrimTight(a, Written(plus, zeros, n), b);
      ParseExactly(Trim(text), n);
    }
  }

  /** A header line: text that ends at its only line feed and is not the blank line. */
  predicate IsHeader(line: seq<Byte>, utf8: seq<Byte> -> bool) {
    line != [] && line[|line| - 1] == LF && LF !in line[..|line| - 1] && line != CRLF && utf8(line)
  }

  function Joined(lines: seq<seq<Byte>>): seq<Byte> {
    if lines == [] then [] else lines[0] + Joined(lines[1..])
  }

  lemma TakesLine(line: seq<Byte>, rest: seq<Byte>, utf8: seq<Byte> -> bool)
    requires IsHeader(line, utf8)
    ensures LineEnd(line + rest) == |line|
    ensures (line + rest)[..|line|] == line && (line + rest)[|line|..] == rest
  {
    var a := line[..|line| - 1];
    assert line + rest == a + [LF] + rest;
    LineEndAt(a, rest);
  }

  /** The field in a line, or none. */
  ghost predicate Sets(line: seq<Byte>, length: Option<nat>, after: Option<nat>) {
    if FIELD <= line then after.Some? && after.value <= USIZE_MAX && Names(line[|FIELD|..], after.value)
    else after == length
  }

  lemma HeaderSets(line: seq<Byte>, rest: seq<Byte>, length: Option<nat>, after: Option<nat>, utf8: seq<Byte> -> bool)
    requires IsHeader(line, utf8) && Sets(line, length, after)
    ensures ReadFrom(line + rest, length, utf8) == ReadFrom(rest, after, utf8)
  {
    TakesLine(line, rest, utf8);
    if FIELD <= line { FieldExactly(line[|FIELD|..], after.value); }
  }

  /** Header lines in order, each of which sets the length or leaves it: `lengths[i]` is the length
      before line `i`. */
  ghost predicate Follows(lines: seq<seq<Byte>>, lengths: seq<Option<nat>>, utf8: seq<Byte> -> bool) {
    && |lengths| == |lines| + 1
    && forall i | 0 <= i < |lines| :: IsHeader(lines[i], utf8) && Sets(lines[i], lengths[i], lengths[i + 1])
  }

  lemma {:induction false} HeadersSet(lines: seq<seq<Byte>>, lengths: seq<Option<nat>>, rest: seq<Byte>, utf8: seq<Byte> -> bool)
    requires Follows(lines, lengths, utf8)
    ensures ReadFrom(Joined(lines) + rest, lengths[0], utf8) == ReadFrom(rest, lengths[|lines|], utf8)
  {
    if lines == [] {
      assert Joined(lines) + rest == rest;
    } else {
      assert Joined(lines) + rest == lines[0] + (Joined(lines[1..]) + rest);
      HeaderSets(lines[0], Joined(lines[1..]) + rest, lengths[0], lengths[1], utf8);
      assert Follows(lines[1..], lengths[1..], utf8) by {
        forall i | 0 <= i < |lines| - 1
          ensures IsHeader(lines[1..][i], utf8) && Sets(lines[1..][i], lengths[1..][i], lengths[1..][i + 1])
        {
          assert IsHeader(lines[i + 1], utf8) && Sets(lines[i + 1], lengths[i + 1], lengths[i + 2]);
        }
      }
      HeadersSet(lines[1..], lengths[1..], rest, utf8);
    }
  }

  /** Any header lines, in any order, and a blank line: the last `Content-Length` says how many bytes
      the message has. Without one the message is refused, and too few bytes are the end of the connection. */
  lemma LastLengthCounts(lines: seq<seq<Byte>>, lengths: seq<Option<nat>>, body: seq<Byte>, utf8: seq<Byte> -> bool)
    requires Follows(lines, lengths, utf8) && lengths[0].None? && utf8(CRLF)
    ensures
      var n := lengths[|lines|];
      Read1(Joined(lines) + (CRLF + body), utf8) ==
        if n.None? then Failed(Protocol)
        else if |body| < n.value then Failed(Closed)
        else Message(body[..n.value], body[n.value..])
  {
    HeadersSet(lines, lengths, CRLF + body, utf8);
    ReadBlank(body, lengths[|lines|], utf8);
  }

  /** A `Content-Length` that names no number that fits refuses the message, whatever came before and
      whatever follows. */
  lemma BadLengthIsRefused(lines: seq<seq<Byte>>, lengths: seq<Option<nat>>, bad: seq<Byte>, rest: seq<Byte>, utf8: seq<Byte> -> bool)
    requires Follows(lines, lengths, utf8) && lengths[0].None? && IsHeader(bad, utf8) && FIELD <= bad
    requires forall n: nat | n <= USIZE_MAX :: !Names(bad[|FIELD|..], n)
    ensures Read1(Joined(lines) + (bad + rest), utf8) == Failed(Protocol)
  {
    HeadersSet(lines, lengths, bad + rest, utf8);
    TakesLine(bad, rest, utf8);
    var n := Parse(Trim(bad[|FIELD|..]));
    if n.Some? { FieldExactly(bad[|FIELD|..], n.value); }
  }
}
