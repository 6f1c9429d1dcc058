/** The receiving end of the board feed: bytes arrive in reads of any size, and
    leave as whole frames. */
module FeedReceiver {
  import opened Wrappers
  import opened Utf8
  import opened FeedText
  import opened FeedCodec

  const NEWLINE: Byte := 10
  const READ_BYTES: nat := 256

  datatype Frame = Board(summary: Summary) | Return(status: ReturnStatus)

  /** A frame as it is sent: a summary in some version, or a return status. */
  datatype Sent = BoardAs(summary: Summary, version: Version) | ReturnOf(status: ReturnStatus)

  function Text(f: Sent): string {
    match f
    case BoardAs(s, v) => Print(s, v)
    case ReturnOf(r) => PrintReturn(r)
  }

  function Meant(f: Sent): Frame {
    match f
    case BoardAs(s, v) => Board(Said(s, v))
    case ReturnOf(r) => Return(r)
  }

  predicate Sendable(f: Sent, letters: char -> bool) {
    match f
    case BoardAs(s, _) => Valid(s, letters)
    case ReturnOf(r) => ValidSession(r.session)
  }

  function ReadFrame(text: string, letters: char -> bool): Option<Frame> {
    if "s1|" <= text then
      var r := ReadReturn(text);
      if r.None? then None else Some(Return(r.value))
    else
      var s := Read(text, letters);
      if s.None? then None else Some(Board(s.value))
  }

  // Bytes, one at a time.

  datatype Stream = Stream(pending: seq<Byte>, frames: seq<Frame>, failed: bool)

  const START := Stream([], [], false)

  function Take(s: Stream, b: Byte, letters: char -> bool): Stream {
    if s.failed then s
    else if b == NEWLINE then
      var text := Decode(s.pending);
      if text.None? || ReadFrame(text.value, letters).None? then s.(failed := true)
      else Stream([], s.frames + [ReadFrame(text.value, letters).value], false)
    else if |s.pending| >= MAX_FRAME_BYTES then s.(failed := true)
    else s.(pending := s.pending + [b])
  }

  function TakeAll(s: Stream, bytes: seq<Byte>, letters: char -> bool): Stream
    decreases |bytes|
  {
    if bytes == [] then s else TakeAll(Take(s, bytes[0], letters), bytes[1..], letters)
  }

  function Flatten(chunks: seq<seq<Byte>>): seq<Byte>
    decreases |chunks|
  {
    if chunks == [] then [] else chunks[0] + Flatten(chunks[1..])
  }

  lemma {:induction false} TakeAllConcat(s: Stream, a: seq<Byte>, b: seq<Byte>, letters: char -> bool)
    ensures TakeAll(s, a + b, letters) == TakeAll(TakeAll(s, a, letters), b, letters)
    decreases |a|
  {
    if a == [] {
      assert a + b == b;
    } else {
      TakeAllConcat(Take(s, a[0], letters), a[1..], b, letters);
      assert (a + b)[1..] == a[1..] + b;
    }
  }

  /** What the receiver returns at the end of input. */
  function Outcome(end: Stream): Option<seq<Frame>> {
    if end.failed || end.pending != [] then None else Some(end.frames)
  }

  class Receiver {
    const letters: char -> bool
    var pending: seq<Byte>
    var frames: seq<Frame>

    constructor (letters: char -> bool)
      ensures this.letters == letters && pending == [] && frames == []
    {
      this.letters := letters;
      pending, frames := [], [];
    }

    /** One byte; a frame that is too long or cannot be read ends the feed. */
    method Push(b: Byte) returns (ok: bool)
      requires |pending| <= MAX_FRAME_BYTES
      modifies this
      ensures |pending| <= MAX_FRAME_BYTES
      ensures Stream(pending, frames, !ok) == Take(old(Stream(pending, frames, false)), b, letters)
    {
      if b == NEWLINE {
        var text := Decode(pending);
        if text.None? {
          return false;
        }
        var frame := ReadFrame(text.value, letters);
        if frame.None? {
          return false;
        }
        frames := frames + [frame.value];
        pending := [];
      } else {
        if |pending| >= MAX_FRAME_BYTES {
          return false;
        }
        pending := pending + [b];
      }
      ok := true;
    }

    /** One read of up to 256 bytes. */
    method PushAll(bytes: seq<Byte>) returns (ok: bool)
      requires |pending| <= MAX_FRAME_BYTES
      modifies this
      ensures |pending| <= MAX_FRAME_BYTES
      ensures Stream(pending, frames, !ok) == TakeAll(old(Stream(pending, frames, false)), bytes, letters)
    {
      ok := true;
      for i := 0 to |bytes|
        invariant ok && |pending| <= MAX_FRAME_BYTES
        invariant TakeAll(old(Stream(pending, frames, false)), bytes, letters)
                  == TakeAll(Stream(pending, frames, false), bytes[i..], letters)
      {
        assert bytes[i..][0] == bytes[i] && bytes[i..][1..] == bytes[i + 1..];
        ok := Push(bytes[i]);
        if !ok {
          FailedStays(Stream(pending, frames, true), bytes[i + 1..], letters);
          return;
        }
      }
    }

    /** Reads until the input ends. The frames taken so far stay published, and
        no more than one frame's bytes are ever held. */
    method Receive(chunks: seq<seq<Byte>>) returns (r: Option<seq<Frame>>)
      requires forall i | 0 <= i < |chunks| :: 0 < |chunks[i]| <= READ_BYTES
      requires pending == [] && frames == []
      modifies this
      ensures |pending| <= MAX_FRAME_BYTES
      ensures var end := TakeAll(START, Flatten(chunks), letters); r == Outcome(end) && frames == end.frames
    {
      ghost var end := TakeAll(START, Flatten(chunks), letters);
      for i := 0 to |chunks|
        invariant |pending| <= MAX_FRAME_BYTES
        invariant end == TakeAll(Stream(pending, frames, false), Flatten(chunks[i..]), letters)
      {
        assert chunks[i..][0] == chunks[i] && chunks[i..][1..] == chunks[i + 1..];
        TakeAllConcat(Stream(pending, frames, false), chunks[i], Flatten(chunks[i + 1..]), letters);
        var ok := PushAll(chunks[i]);
        if !ok {
          FailedStays(Stream(pending, frames, true), Flatten(chunks[i + 1..]), letters);
          return None;
        }
      }
      assert chunks[|chunks|..] == [];
      r := if pending == [] then Some(frames) else None;
    }
  }

  lemma {:induction false} FailedStays(s: Stream, bytes: seq<Byte>, letters: char -> bool)
    requires s.failed
    ensures TakeAll(s, bytes, letters) == s
    decreases |bytes|
  {
    if bytes != [] { FailedStays(s, bytes[1..], letters); }
  }

  // Whole frames.

  predicate OneLine(s: string) { '\n' !in s }

  lemma {:induction false} JoinIsOneLine(parts: seq<string>, sep: char)
    requires parts != [] && sep != '\n' && forall i | 0 <= i < |parts| :: OneLine(parts[i])
    ensures OneLine(Join(parts, sep))
    decreases |parts|
  {
    if |parts| > 1 { JoinIsOneLine(parts[1..], sep); }
  }

  lemma StatusIsOneLine(s: Option<Status>)
    ensures OneLine(StatusName(s))
  {
  }

  lemma ReturnText(r: ReturnStatus)
    requires ValidSession(r.session)
    ensures OneLine(PrintReturn(r)) && "s1|" <= PrintReturn(r) && ByteLen(PrintReturn(r)) <= MAX_FRAME_BYTES
  {
    var f := ["s1", ProviderName(r.provider), r.session, StatusName(r.status), Flag(r.colors)];
    assert forall i | 0 <= i < |r.session| :: SessionChar(r.session[i]) && r.session[i] != '\n';
    StatusIsOneLine(r.status);
    JoinIsOneLine(f, '|');
    ReturnRoundTrip(r);
    assert PrintReturn(r) == "s1" + "|" + Join(f[1..], '|');
  }

  lemma SummaryParts(s: Summary, letters: char -> bool)
    requires Valid(s, letters)
    ensures OneLine(PrintCounts(s)) && OneLine(LabelText(s.latest)) && OneLine(KindName(s.attention))
  {
    CountsArePlain(s);
    var counts, name := PrintCounts(s), LabelText(s.latest);
    assert forall i | 0 <= i < |counts| :: Plain(counts[i]) && counts[i] != '\n';
    assert forall i | 0 <= i < |name| :: Inert(name[i], letters) && name[i] != '\n';
  }

  lemma SummaryText(s: Summary, v: Version, letters: char -> bool)
    requires Valid(s, letters)
    ensures OneLine(Print(s, v)) && !("s1|" <= Print(s, v)) && ByteLen(Print(s, v)) <= MAX_FRAME_BYTES
  {
    CountsArePlain(s);
    ShortEnough(s, v, letters);
    PrintedIsRead(s, v, letters);
    SummaryParts(Said(s, v), letters);
    if v.V1? {
      assert Print(s, v)[0] == PrintCounts(s)[0];
    } else {
      PrintedShape(s, v);
      assert Print(s, v)[0] == 'v';
    }
    assert "s1|"[0] == 's';
  }

  /** A sendable frame is one line that reads as what was meant. */
  lemma FrameIsRead(f: Sent, letters: char -> bool)
    requires Sendable(f, letters)
    ensures ReadFrame(Text(f), letters) == Some(Meant(f)) && OneLine(Text(f)) && ByteLen(Text(f)) <= MAX_FRAME_BYTES
  {
    match f {
      case BoardAs(s, v) =>
        SummaryText(s, v, letters);
        PrintedIsRead(s, v, letters);
      case ReturnOf(r) =>
        ReturnText(r);
        ReturnRoundTrip(r);
    }
  }

  lemma {:induction false} BytesAreHeld(s: Stream, bytes: seq<Byte>, letters: char -> bool)
    requires !s.failed && NEWLINE !in bytes && |s.pending| + |bytes| <= MAX_FRAME_BYTES
    ensures TakeAll(s, bytes, letters) == s.(pending := s.pending + bytes)
    decreases |bytes|
  {
    if bytes == [] {
      assert s.pending + bytes == s.pending;
    } else {
      assert bytes[0] in bytes;
      BytesAreHeld(Take(s, bytes[0], letters), bytes[1..], letters);
      assert s.pending + [bytes[0]] + bytes[1..] == s.pending + bytes;
    }
  }

  lemma LineIsTaken(frames: seq<Frame>, f: Sent, letters: char -> bool)
    requires Sendable(f, letters)
    ensures TakeAll(Stream([], frames, false), Encode(Text(f)) + [NEWLINE], letters)
            == Stream([], frames + [Meant(f)], false)
  {
    FrameIsRead(f, letters);
    var s, bytes := Stream([], frames, false), Encode(Text(f));
    NoAsciiInside(Text(f), '\n');
    ByteLenIsLength(Text(f));
    BytesAreHeld(s, bytes, letters);
    assert [] + bytes == bytes;
    TakeAllConcat(s, bytes, [NEWLINE], letters);
    RoundTrip(Text(f));
    assert [NEWLINE][1..] == [];
  }

  /** The bytes a list of frames is sent as. */
  function Wire(sent: seq<Sent>): seq<Byte>
    decreases |sent|
  {
    if sent == [] then [] else Encode(Text(sent[0])) + [NEWLINE] + Wire(sent[1..])
  }

  function Meanings(sent: seq<Sent>): seq<Frame> { seq(|sent|, i requires 0 <= i < |sent| => Meant(sent[i])) }

  lemma {:induction false} WireIsTaken(frames: seq<Frame>, sent: seq<Sent>, letters: char -> bool)
    requires forall i | 0 <= i < |sent| :: Sendable(sent[i], letters)
    ensures TakeAll(Stream([], frames, false), Wire(sent), letters) == Stream([], frames + Meanings(sent), false)
    decreases |sent|
  {
    if sent == [] {
      assert frames + [] == frames;
    } else {
      LineIsTaken(frames, sent[0], letters);
      TakeAllConcat(Stream([], frames, false), Encode(Text(sent[0])) + [NEWLINE], Wire(sent[1..]), letters);
      WireIsTaken(frames + [Meant(sent[0])], sent[1..], letters);
      assert frames + [Meant(sent[0])] + Meanings(sent[1..]) == frames + Meanings(sent);
    }
  }

  /** Any list of valid frames, in any mixture of versions, cut into reads at
      any byte, is received as exactly what it meant. */
  lemma CutAnywhere(sent: seq<Sent>, chunks: seq<seq<Byte>>, letters: char -> bool)
    requires forall i | 0 <= i < |sent| :: Sendable(sent[i], letters)
    requires Flatten(chunks) == Wire(sent)
    ensures Outcome(TakeAll(START, Flatten(chunks), letters)) == Some(Meanings(sent))
  {
    WireIsTaken([], sent, letters);
    assert [] + Meanings(sent) == Meanings(sent);
  }

  predicate ValidFrame(f: Frame, letters: char -> bool) {
    match f
    case Board(s) => Valid(s, letters)
    case Return(r) => ValidSession(r.session)
  }

  predicate AllValid(frames: seq<Frame>, letters: char -> bool) {
    forall i | 0 <= i < |frames| :: ValidFrame(frames[i], letters)
  }

  lemma TakenIsValid(s: Stream, b: Byte, letters: char -> bool)
    requires AllValid(s.frames, letters)
    ensures AllValid(Take(s, b, letters).frames, letters)
  {
    var text := Decode(s.pending);
    if text.Some? {
      ReadIsValid(text.value, letters);
      var frame := ReadFrame(text.value, letters);
      assert frame.Some? ==> ValidFrame(frame.value, letters);
    }
  }

  /** Whatever bytes arrive, what is published is valid. */
  lemma {:induction false} PublishedIsValid(s: Stream, bytes: seq<Byte>, letters: char -> bool)
    requires AllValid(s.frames, letters)
    ensures AllValid(TakeAll(s, bytes, letters).frames, letters)
    decreases |bytes|
  {
    if bytes != [] {
      TakenIsValid(s, bytes[0], letters);
      PublishedIsValid(Take(s, bytes[0], letters), bytes[1..], letters);
    }
  }

  // Exactly what is received.

  /** Lines, each ended. */
  function Lines(lines: seq<seq<Byte>>): seq<Byte> {
    if lines == [] then [] else Lines(lines[..|lines| - 1]) + (lines[|lines| - 1] + [NEWLINE])
  }

  /** A line of at most 512 bytes that decodes to a text that reads as the frame. */
  predicate LineReads(line: seq<Byte>, frame: Frame, letters: char -> bool) {
    && NEWLINE !in line && |line| <= 512 && Decode(line).Some?
    && ReadFrame(Decode(line).value, letters) == Some(frame)
  }

  predicate LinesRead(lines: seq<seq<Byte>>, frames: seq<Frame>, letters: char -> bool) {
    |lines| == |frames| && forall i | 0 <= i < |lines| :: LineReads(lines[i], frames[i], letters)
  }

  lemma {:induction false} LinesAreTaken(lines: seq<seq<Byte>>, frames: seq<Frame>, letters: char -> bool)
    requires LinesRead(lines, frames, letters)
    ensures TakeAll(START, Lines(lines), letters) == Stream([], frames, false)
    decreases |lines|
  {
    if lines != [] {
      var n := |lines| - 1;
      LinesAreTaken(lines[..n], frames[..n], letters);
      TakeAllConcat(START, Lines(lines[..n]), lines[n] + [NEWLINE], letters);
      LineIsRead(frames[..n], lines[n], frames[n], letters);
      assert frames == frames[..n] + [frames[n]];
    }
  }

  lemma LineIsRead(frames: seq<Frame>, line: seq<Byte>, frame: Frame, letters: char -> bool)
    requires LineReads(line, frame, letters)
    ensures TakeAll(Stream([], frames, false), line + [NEWLINE], letters) == Stream([], frames + [frame], false)
  {
    var before := Stream([], frames, false);
    BytesAreHeld(before, line, letters);
    TakeAllConcat(before, line, [NEWLINE], letters);
    assert [] + line == line && [NEWLINE][1..] == [];
    var held := before.(pending := line);
    assert TakeAll(held, [NEWLINE], letters) == Take(held, NEWLINE, letters);
  }

  /** What a feed that has not failed is made of. */
  lemma {:induction false} TakenIsLines(bytes: seq<Byte>, letters: char -> bool) returns (lines: seq<seq<Byte>>)
    requires !TakeAll(START, bytes, letters).failed
    ensures var s := TakeAll(START, bytes, letters);
            LinesRead(lines, s.frames, letters) && bytes == Lines(lines) + s.pending
            && NEWLINE !in s.pending && |s.pending| <= 512
    decreases |bytes|
  {
    lines := [];
    if bytes != [] {
      var n := |bytes| - 1;
      assert bytes == bytes[..n] + [bytes[n]] && [bytes[n]][1..] == [];
      TakeAllConcat(START, bytes[..n], [bytes[n]], letters);
      var before := TakeAll(START, bytes[..n], letters);
      assert TakeAll(before, [bytes[n]], letters) == Take(before, bytes[n], letters);
      lines := TakenIsLines(bytes[..n], letters);
      lines := OneByteMore(bytes[..n], before, bytes[n], lines, letters);
    }
  }

  lemma OneByteMore(bytes: seq<Byte>, s: Stream, b: Byte, before: seq<seq<Byte>>, letters: char -> bool)
    returns (lines: seq<seq<Byte>>)
    requires LinesRead(before, s.frames, letters) && bytes == Lines(before) + s.pending
    requires NEWLINE !in s.pending && |s.pending| <= 512 && !s.failed && !Take(s, b, letters).failed
    ensures var after := Take(s, b, letters);
            LinesRead(lines, after.frames, letters) && bytes + [b] == Lines(lines) + after.pending
            && NEWLINE !in after.pending && |after.pending| <= 512
  {
    if b == NEWLINE {
      lines := before + [s.pending];
      assert lines[..|before|] == before;
      assert Lines(before) + s.pending + [b] == Lines(before) + (s.pending + [NEWLINE]) + [];
    } else {
      lines := before;
      assert Lines(before) + s.pending + [b] == Lines(before) + (s.pending + [b]);
    }
  }

  /** However the bytes are cut, a feed that ends is received as these frames
      exactly if it consists of as many ended lines, each of at most 512 bytes of
      UTF-8, which read as them. A line that is longer or reads as nothing, and an
      unended rest, is no feed. */
  lemma ReceivedExactlyWhen(chunks: seq<seq<Byte>>, frames: seq<Frame>, letters: char -> bool)
    ensures Outcome(TakeAll(START, Flatten(chunks), letters)) == Some(frames) <==>
            exists lines :: Flatten(chunks) == Lines(lines) && LinesRead(lines, frames, letters)
  {
    var bytes := Flatten(chunks);
    if Outcome(TakeAll(START, bytes, letters)) == Some(frames) {
      var lines := TakenIsLines(bytes, letters);
      assert bytes == Lines(lines);
    }
    if lines :| bytes == Lines(lines) && LinesRead(lines, frames, letters) {
      LinesAreTaken(lines, frames, letters);
    }
  }
}
