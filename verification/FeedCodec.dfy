/** The board feed's frames: summaries in four versions, and return statuses. */
module FeedCodec {
  import opened Wrappers
  import opened Utf8
  import opened FeedText

  const MAX_FRAME_BYTES: nat := 512
  const MAX_COUNTS_BYTES: nat := 40
  const MAX_COUNT: nat := 100_0000
  const MAX_RETURN_SESSION_ID: nat := 96

  datatype Kind = OpenTwice | Failed | Unbound | Ready

  datatype Summary = Summary(needsYou: nat, working: nat, ready: nat, parked: nat, colors: bool, latest: Option<string>,
      attention: Option<Kind>)

  // Printing.

  function Flag(b: bool): string { if b then "1" else "0" }

  function PrintCounts(s: Summary): string {
    Join([Digits(s.needsYou), Digits(s.working), Digits(s.ready), Digits(s.parked), Flag(s.colors)], ',')
  }

  function KindName(k: Option<Kind>): string {
    match k
    case None => "request"
    case Some(OpenTwice) => "open-twice"
    case Some(Failed) => "error"
    case Some(Unbound) => "unbound"
    case Some(Ready) => "ready"
  }

  function LabelText(latest: Option<string>): string { if latest.None? then "" else latest.value }

  datatype Version = V1 | V2 | V3 | V4

  /** Older receivers take any label for an agent's request, and the third
      version does not know that an agent is merely ready. */
  function Print(s: Summary, v: Version): string {
    match v
    case V1 => PrintCounts(s)
    case V2 => "v2|" + PrintCounts(s) + "|" + (if s.attention.None? then LabelText(s.latest) else "")
    case V3 =>
      if s.attention == Some(Ready) then "v3|" + PrintCounts(s) + "|" + KindName(None) + "|" + ""
      else "v3|" + PrintCounts(s) + "|" + KindName(s.attention) + "|" + LabelText(s.latest)
    case V4 => "v4|" + PrintCounts(s) + "|" + KindName(s.attention) + "|" + LabelText(s.latest)
  }

  /** What each version says of a summary. */
  function Said(s: Summary, v: Version): Summary {
    match v
    case V1 => s.(latest := None, attention := None)
    case V2 => if s.attention.None? then s else s.(latest := None, attention := None)
    case V3 => if s.attention == Some(Ready) then s.(latest := None, attention := None) else s
    case V4 => s
  }

  // Reading.

  function ParseKind(name: string, readyKnown: bool): Option<Option<Kind>> {
    if name == "request" then Some(None)
    else if name == "open-twice" then Some(Some(OpenTwice))
    else if name == "error" then Some(Some(Failed))
    else if name == "unbound" then Some(Some(Unbound))
    else if name == "ready" && readyKnown then Some(Some(Ready))
    else None
  }

  function ParseAll(parts: seq<string>): Option<seq<nat>>
    decreases |parts|
  {
    if parts == [] then Some([])
    else
      var first, rest := ParseUsize(parts[0]), ParseAll(parts[1..]);
      if first.None? || rest.None? then None else Some([first.value] + rest.value)
  }

  function ReadCounts(counts: string, latest: Option<string>, warning: Option<Kind>): Option<Summary> {
    var n := ParseAll(Split(counts, ','));
    if ByteLen(counts) > MAX_COUNTS_BYTES || n.None? || |n.value| != 5 then None
    else if n.value[0] > MAX_COUNT || n.value[1] > MAX_COUNT || n.value[2] > MAX_COUNT || n.value[3] > MAX_COUNT
      || n.value[4] > 1 then None
    else if n.value[0] == 0 && latest.Some? && warning != Some(Ready) then None
    else if warning == Some(Ready) && n.value[2] == 0 then None
    else if warning.Some? && latest.None? then None
    else Some(Summary(n.value[0], n.value[1], n.value[2], n.value[3], n.value[4] == 1, latest, warning))
  }

  function ReadLabelled(value: string, warning: Option<Kind>, letters: char -> bool): Option<Summary> {
    if "v2|" <= value then
      var parts := SplitOnce(value[3..], '|');
      if parts.None? || parts.value.1 != SafeLabel(parts.value.1, letters) then None
      else ReadCounts(parts.value.0, if parts.value.1 == "" then None else Some(parts.value.1), warning)
    else ReadCounts(value, None, warning)
  }

  function ReadNamed(value: string, readyKnown: bool, letters: char -> bool): Option<Summary> {
    var first := SplitOnce(value, '|');
    if first.None? then None
    else
      var second := SplitOnce(first.value.1, '|');
      if second.None? || ParseKind(second.value.0, readyKnown).None? then None
      else ReadLabelled("v2|" + first.value.0 + "|" + second.value.1, ParseKind(second.value.0, readyKnown).value,
        letters)
  }

  function Read(value: string, letters: char -> bool): Option<Summary> {
    if ByteLen(value) > MAX_FRAME_BYTES then None
    else if "v4|" <= value then ReadNamed(value[3..], true, letters)
    else if "v3|" <= value then ReadNamed(value[3..], false, letters)
    else ReadLabelled(value, None, letters)
  }

  /** What the wire can carry. */
  predicate Valid(s: Summary, letters: char -> bool) {
    && s.needsYou <= MAX_COUNT && s.working <= MAX_COUNT && s.ready <= MAX_COUNT && s.parked <= MAX_COUNT
    && (s.latest.Some? ==>
           s.latest.value != "" && Safe(s.latest.value, letters) && (s.needsYou > 0 || s.attention == Some(Ready)))
    && (s.attention == Some(Ready) ==> s.ready > 0)
    && (s.attention.Some? ==> s.latest.Some?)
  }

  // Counts.

  lemma {:induction false} DigitsAllParse(ns: seq<nat>)
    requires forall i | 0 <= i < |ns| :: ns[i] <= USIZE_MAX
    ensures ParseAll(seq(|ns|, i requires 0 <= i < |ns| => Digits(ns[i]))) == Some(ns)
    decreases |ns|
  {
    if ns != [] {
      DigitsParse(ns[0]);
      DigitsAllParse(ns[1..]);
      var printed := seq(|ns|, i requires 0 <= i < |ns| => Digits(ns[i]));
      assert printed[1..] == seq(|ns[1..]|, i requires 0 <= i < |ns[1..]| => Digits(ns[1..][i]));
      assert ns == [ns[0]] + ns[1..];
    }
  }

  lemma CountLength(n: nat)
    requires n <= MAX_COUNT
    ensures |Digits(n)| <= 7
  {
    assert Power(7) == 1000_0000 by {
      assert Power(3) == 1000;
      assert Power(5) == 100 * Power(3);
      assert Power(7) == 100 * Power(5);
    }
    DigitsLength(n, 7, Power(7));
  }

  function Fields(s: Summary): seq<string> {
    [Digits(s.needsYou), Digits(s.working), Digits(s.ready), Digits(s.parked), Flag(s.colors)]
  }

  lemma CountsAreRead(s: Summary)
    requires s.needsYou <= USIZE_MAX && s.working <= USIZE_MAX && s.ready <= USIZE_MAX && s.parked <= USIZE_MAX
    ensures ParseAll(Split(PrintCounts(s), ',')) ==
            Some([s.needsYou, s.working, s.ready, s.parked, if s.colors then 1 else 0])
  {
    var n: nat := if s.colors then 1 else 0;
    var ns := [s.needsYou, s.working, s.ready, s.parked, n];
    DigitsAllParse(ns);
    assert Flag(s.colors) == Digits(n);
    assert Fields(s) == seq(|ns|, i requires 0 <= i < |ns| => Digits(ns[i]));
    forall i | 0 <= i < 5 ensures ',' !in Fields(s)[i] {
      assert Fields(s)[i] == Digits(ns[i]);
    }
    SplitJoin(Fields(s), ',');
  }

  predicate Plain(c: char) { IsDigit(c) || c == ',' }

  lemma {:induction false} JoinedIsPlain(parts: seq<string>)
    requires parts != [] && forall i | 0 <= i < |parts| :: forall k | 0 <= k < |parts[i]| :: IsDigit(parts[i][k])
    ensures forall k | 0 <= k < |Join(parts, ',')| :: Plain(Join(parts, ',')[k])
    decreases |parts|
  {
    if |parts| > 1 { JoinedIsPlain(parts[1..]); }
  }

  lemma JoinFive(f: seq<string>, sep: char)
    requires |f| == 5
    ensures Join(f, sep) == f[0] + [sep] + (f[1] + [sep] + (f[2] + [sep] + (f[3] + [sep] + f[4])))
  {
    assert f[3..][1..] == f[4..] && f[2..][1..] == f[3..] && f[1..][1..] == f[2..];
    assert Join(f[3..], sep) == f[3] + [sep] + f[4];
    assert Join(f[1..], sep) == f[1] + [sep] + Join(f[2..], sep);
  }

  /** Printed counts are digits and commas, and few if the counts are small. */
  lemma CountsArePlain(s: Summary)
    ensures var t := PrintCounts(s);
            && t != "" && IsDigit(t[0]) && (forall k | 0 <= k < |t| :: Plain(t[k])) && '|' !in t && ByteLen(t) == |t|
            && (s.needsYou <= MAX_COUNT && s.working <= MAX_COUNT && s.ready <= MAX_COUNT && s.parked <= MAX_COUNT ==>
                   |t| <= 33)
  {
    var t, f := PrintCounts(s), Fields(s);
    JoinedIsPlain(f);
    assert t[0] == f[0][0];
    AsciiLen(t);
    JoinFive(f, ',');
    if s.needsYou <= MAX_COUNT && s.working <= MAX_COUNT && s.ready <= MAX_COUNT && s.parked <= MAX_COUNT {
      CountLength(s.needsYou);
      CountLength(s.working);
      CountLength(s.ready);
      CountLength(s.parked);
    }
  }

  /** Reading printed counts gives a summary back exactly when it is valid. */
  lemma ReadCountsIff(s: Summary, letters: char -> bool)
    requires s.latest.Some? ==> s.latest.value != "" && Safe(s.latest.value, letters)
    ensures ReadCounts(PrintCounts(s), s.latest, s.attention) == Some(s) <==> Valid(s, letters)
  {
    CountsArePlain(s);
    if s.needsYou <= MAX_COUNT && s.working <= MAX_COUNT && s.ready <= MAX_COUNT && s.parked <= MAX_COUNT {
      CountsAreRead(s);
    }
  }

  // Frames.

  lemma NameFits(name: string)
    requires forall i | 0 <= i < |name| :: 'a' <= name[i] <= 'z' || name[i] == '-'
    ensures '|' !in name && ByteLen(name) == |name|
  {
    AsciiLen(name);
  }

  lemma KindFits(k: Option<Kind>)
    ensures '|' !in KindName(k) && ByteLen(KindName(k)) <= 10
  {
    match k
    case None => NameFits("request");
    case Some(OpenTwice) => NameFits("open-twice");
    case Some(Failed) => NameFits("error");
    case Some(Unbound) => NameFits("unbound");
    case Some(Ready) => NameFits("ready");
  }

  lemma KindsParse(k: Option<Kind>, readyKnown: bool)
    ensures ParseKind(KindName(k), readyKnown) == if k == Some(Ready) && !readyKnown then None else Some(k)
  {
    if k == Some(Ready) { assert KindName(k)[0] == 'r' && "error"[0] == 'e'; }
    if k == Some(Unbound) { assert KindName(k)[0] == 'u' && "request"[0] == 'r'; }
  }

  lemma LabelledIsRead(counts: string, text: string, warning: Option<Kind>, letters: char -> bool)
    requires '|' !in counts
    ensures ReadLabelled("v2|" + counts + "|" + text, warning, letters) ==
            if !Safe(text, letters) then None else ReadCounts(counts, if text == "" then None else Some(text), warning)
  {
    var value := "v2|" + counts + "|" + text;
    assert value[3..] == counts + "|" + text;
    SplitOnceAt(counts, '|', text);
    SafeLabelIsSafe(text, letters);
  }

  lemma NamedIsRead(counts: string, k: Option<Kind>, text: string, readyKnown: bool, letters: char -> bool)
    requires '|' !in counts
    ensures ReadNamed(counts + "|" + KindName(k) + "|" + text, readyKnown, letters) ==
            if k == Some(Ready) && !readyKnown then None
            else if !Safe(text, letters) then None else ReadCounts(counts, if text == "" then None else Some(text), k)
  {
    KindFits(k);
    KindsParse(k, readyKnown);
    var rest := KindName(k) + "|" + text;
    assert counts + "|" + KindName(k) + "|" + text == counts + "|" + rest;
    SplitOnceAt(counts, '|', rest);
    SplitOnceAt(KindName(k), '|', text);
    LabelledIsRead(counts, text, k, letters);
  }

  lemma FrameLength(mark: string, counts: string, name: string, text: string)
    ensures ByteLen(mark + counts + "|" + name + "|" + text) == ByteLen(mark) + ByteLen(counts) + ByteLen(name)
            + ByteLen(text) + 2
    ensures ByteLen(mark + counts + "|" + text) == ByteLen(mark) + ByteLen(counts) + ByteLen(text) + 1
  {
    ByteLenConcat(mark, counts);
    ByteLenConcat(mark + counts, "|");
    ByteLenConcat(mark + counts + "|", name);
    ByteLenConcat(mark + counts + "|" + name, "|");
    ByteLenConcat(mark + counts + "|" + name + "|", text);
    ByteLenConcat(mark + counts + "|", text);
  }

  function Mark(v: Version): string {
    match v
    case V1 => ""
    case V2 => "v2|"
    case V3 => "v3|"
    case V4 => "v4|"
  }

  lemma PrintedShape(s: Summary, v: Version)
    requires !v.V1?
    ensures var said := Said(s, v);
            Print(s, v) ==
              if v.V2? then Mark(v) + PrintCounts(said) + "|" + LabelText(said.latest)
              else Mark(v) + PrintCounts(said) + "|" + KindName(said.attention) + "|" + LabelText(said.latest)
  {
  }

  lemma ShortEnough(s: Summary, v: Version, letters: char -> bool)
    requires s.latest.Some? ==> Safe(s.latest.value, letters)
    requires s.needsYou <= MAX_COUNT && s.working <= MAX_COUNT && s.ready <= MAX_COUNT && s.parked <= MAX_COUNT
    ensures ByteLen(Print(s, v)) <= MAX_FRAME_BYTES
  {
    var said := Said(s, v);
    CountsArePlain(said);
    if !v.V1? {
      PrintedShape(s, v);
      KindFits(said.attention);
      AsciiLen(Mark(v));
      FrameLength(Mark(v), PrintCounts(said), KindName(said.attention), LabelText(said.latest));
    }
  }

  lemma MarkedIsNamed(rest: string, v: Version, letters: char -> bool)
    requires (v.V3? || v.V4?) && ByteLen(Mark(v) + rest) <= MAX_FRAME_BYTES
    ensures Read(Mark(v) + rest, letters) == ReadNamed(rest, v.V4?, letters)
  {
    var t := Mark(v) + rest;
    assert t[3..] == rest;
    if v.V3? { assert t[1] == '3' && "v4|"[1] == '4'; }
  }

  lemma SaidIsSafe(s: Summary, v: Version, letters: char -> bool)
    requires s.latest.Some? ==> s.latest.value != "" && Safe(s.latest.value, letters)
    ensures var said := Said(s, v);
            && Safe(LabelText(said.latest), letters)
            && said.latest == (if LabelText(said.latest) == "" then None else Some(LabelText(said.latest)))
            && (v.V3? ==> said.attention != Some(Ready))
  {
  }

  lemma NamedFrameIsRead(s: Summary, v: Version, letters: char -> bool)
    requires v.V3? || v.V4?
    requires s.latest.Some? ==> s.latest.value != "" && Safe(s.latest.value, letters)
    requires ByteLen(Print(s, v)) <= MAX_FRAME_BYTES
    ensures var said := Said(s, v);
            Read(Print(s, v), letters) == ReadCounts(PrintCounts(said), said.latest, said.attention)
  {
    var said := Said(s, v);
    var counts, name, text := PrintCounts(said), KindName(said.attention), LabelText(said.latest);
    PrintedShape(s, v);
    assert Mark(v) + counts + "|" + name + "|" + text == Mark(v) + (counts + "|" + name + "|" + text);
    MarkedIsNamed(counts + "|" + name + "|" + text, v, letters);
    CountsArePlain(said);
    SaidIsSafe(s, v, letters);
    NamedIsRead(counts, said.attention, text, v.V4?, letters);
  }

  lemma PlainFrameIsRead(s: Summary, v: Version, letters: char -> bool)
    requires v.V1? || v.V2?
    requires s.latest.Some? ==> s.latest.value != "" && Safe(s.latest.value, letters)
    requires ByteLen(Print(s, v)) <= MAX_FRAME_BYTES
    ensures var said := Said(s, v);
            Read(Print(s, v), letters) == ReadCounts(PrintCounts(said), said.latest, said.attention)
  {
    var said := Said(s, v);
    CountsArePlain(said);
    if v.V1? {
      assert Print(s, v)[0] == PrintCounts(said)[0];
      assert "v4|"[0] == "v3|"[0] == "v2|"[0] == 'v';
    } else {
      PrintedShape(s, v);
      assert Print(s, v)[1] == '2' && "v4|"[1] == '4' && "v3|"[1] == '3';
      LabelledIsRead(PrintCounts(said), LabelText(said.latest), None, letters);
    }
  }

  /** Each version of a valid summary is read as what it says, which is valid. */
  lemma PrintedIsRead(s: Summary, v: Version, letters: char -> bool)
    requires Valid(s, letters)
    ensures Valid(Said(s, v), letters) && Read(Print(s, v), letters) == Some(Said(s, v))
  {
    ShortEnough(s, v, letters);
    if v.V3? || v.V4? { NamedFrameIsRead(s, v, letters); } else { PlainFrameIsRead(s, v, letters); }
    ReadCountsIff(Said(s, v), letters);
  }

  lemma LabelledReadsValid(value: string, warning: Option<Kind>, letters: char -> bool)
    ensures ReadLabelled(value, warning, letters).Some? ==> Valid(ReadLabelled(value, warning, letters).value, letters)
  {
    if "v2|" <= value && SplitOnce(value[3..], '|').Some? {
      SafeLabelIsSafe(SplitOnce(value[3..], '|').value.1, letters);
    }
  }

  lemma NamedReadsValid(value: string, readyKnown: bool, letters: char -> bool)
    ensures ReadNamed(value, readyKnown, letters).Some? ==> Valid(ReadNamed(value, readyKnown, letters).value, letters)
  {
    if ReadNamed(value, readyKnown, letters).Some? {
      var first := SplitOnce(value, '|').value;
      var second := SplitOnce(first.1, '|').value;
      LabelledReadsValid("v2|" + first.0 + "|" + second.1, ParseKind(second.0, readyKnown).value, letters);
    }
  }

  /** Whatever is read is valid: no frame brings in a count, label or warning
      that could not be sent. */
  lemma ReadIsValid(value: string, letters: char -> bool)
    ensures Read(value, letters).Some? ==> Valid(Read(value, letters).value, letters)
  {
    LabelledReadsValid(value, None, letters);
    if "v4|" <= value || "v3|" <= value {
      NamedReadsValid(value[3..], true, letters);
      NamedReadsValid(value[3..], false, letters);
    }
  }

  /** The current version carries a summary exactly when it is valid. */
  lemma CurrentVersionRoundTrip(s: Summary, letters: char -> bool)
    ensures Read(Print(s, V4), letters) == Some(s) <==> Valid(s, letters)
  {
    if Valid(s, letters) {
      PrintedIsRead(s, V4, letters);
    } else {
      ReadIsValid(Print(s, V4), letters);
    }
  }

  // Return statuses.

  datatype Provider = Codex | Claude | Opencode | Muse

  datatype Status = Starting | NeedsYou | OpenTwiceNow | Working | ReadyNow | Parked | UnboundNow | Error

  datatype ReturnStatus = ReturnStatus(provider: Provider, session: string, status: Option<Status>, colors: bool)

  function ProviderName(p: Provider): string {
    match p
    case Codex => "codex"
    case Claude => "claude"
    case Opencode => "opencode"
    case Muse => "muse"
  }

  function LowerChar(c: char): char { if 'A' <= c <= 'Z' then (c as int + 32) as char else c }

  function Lower(s: string): string { seq(|s|, i requires 0 <= i < |s| => LowerChar(s[i])) }

  function ParseProvider(s: string): Option<Provider> {
    var name := Lower(s);
    if name == "codex" then Some(Codex)
    else if name == "claude" then Some(Claude)
    else if name == "opencode" || name == "oc" then Some(Opencode)
    else if name == "muse" then Some(Muse)
    else None
  }

  function StatusName(s: Option<Status>): string {
    match s
    case None => "unknown"
    case Some(Starting) => "starting"
    case Some(NeedsYou) => "needs-you"
    case Some(OpenTwiceNow) => "open-twice"
    case Some(Working) => "working"
    case Some(ReadyNow) => "ready"
    case Some(Parked) => "parked"
    case Some(UnboundNow) => "unbound"
    case Some(Error) => "error"
  }

  function ParseStatus(s: string): Option<Option<Status>> {
    if s == "unknown" then Some(None)
    else if s == "starting" then Some(Some(Starting))
    else if s == "needs-you" then Some(Some(NeedsYou))
    else if s == "open-twice" then Some(Some(OpenTwiceNow))
    else if s == "working" then Some(Some(Working))
    else if s == "ready" then Some(Some(ReadyNow))
    else if s == "parked" then Some(Some(Parked))
    else if s == "unbound" then Some(Some(UnboundNow))
    else if s == "error" then Some(Some(Error))
    else None
  }

  predicate SessionChar(c: char) {
    IsDigit(c) || 'A' <= c <= 'Z' || 'a' <= c <= 'z' || c == '-' || c == '_' || c == '.' || c == ':'
  }

  predicate ValidSession(s: string) {
    s != "" && ByteLen(s) <= MAX_RETURN_SESSION_ID && forall i | 0 <= i < |s| :: SessionChar(s[i])
  }

  function PrintReturn(r: ReturnStatus): string {
    Join(["s1", ProviderName(r.provider), r.session, StatusName(r.status), Flag(r.colors)], '|')
  }

  function ReadReturn(value: string): Option<ReturnStatus> {
    var f := Split(value, '|');
    if ByteLen(value) > MAX_FRAME_BYTES || |f| != 5 || f[0] != "s1" then None
    else if ParseProvider(f[1]).None? || !ValidSession(f[2]) || ParseStatus(f[3]).None? || (f[4] != "0" && f[4] != "1")
      then None
    else Some(ReturnStatus(ParseProvider(f[1]).value, f[2], ParseStatus(f[3]).value, f[4] == "1"))
  }

  lemma ProvidersParse(p: Provider)
    ensures ParseProvider(ProviderName(p)) == Some(p)
  {
    assert Lower(ProviderName(p)) == ProviderName(p);
    if p.Claude? { assert ProviderName(p)[1] == 'l'; }
  }

  lemma ProviderFits(p: Provider)
    ensures '|' !in ProviderName(p) && ByteLen(ProviderName(p)) <= 8
  {
    NameFits(ProviderName(p));
  }

  lemma StatusFits(s: Option<Status>)
    ensures '|' !in StatusName(s) && ByteLen(StatusName(s)) <= 10
  {
    if s in {None, Some(Starting), Some(NeedsYou), Some(OpenTwiceNow)} {
      EarlyStatusFits(s);
    } else {
      LateStatusFits(s);
    }
  }

  lemma EarlyStatusFits(s: Option<Status>)
    requires s in {None, Some(Starting), Some(NeedsYou), Some(OpenTwiceNow)}
    ensures '|' !in StatusName(s) && ByteLen(StatusName(s)) <= 10
  {
    match s
    case None => NameFits("unknown");
    case Some(Starting) => NameFits("starting");
    case Some(NeedsYou) => NameFits("needs-you");
    case Some(OpenTwiceNow) => NameFits("open-twice");
  }

  lemma LateStatusFits(s: Option<Status>)
    requires s !in {None, Some(Starting), Some(NeedsYou), Some(OpenTwiceNow)}
    ensures '|' !in StatusName(s) && ByteLen(StatusName(s)) <= 10
  {
    match s
    case Some(Working) => NameFits("working");
    case Some(ReadyNow) => NameFits("ready");
    case Some(Parked) => NameFits("parked");
    case Some(UnboundNow) => NameFits("unbound");
    case Some(Error) => NameFits("error");
  }

  lemma StatusesParse(s: Option<Status>)
    ensures ParseStatus(StatusName(s)) == Some(s)
  {
    if s == Some(Working) { assert StatusName(s)[0] == 'w' && "unknown"[0] == 'u'; }
    if s == Some(UnboundNow) { assert StatusName(s)[2] == 'b' && "unknown"[2] == 'k' && "working"[0] == 'w'; }
    if s == Some(Error) { assert StatusName(s)[0] == 'e' && "ready"[0] == 'r'; }
  }

  lemma JoinFiveLength(f: seq<string>, sep: char)
    requires |f| == 5 && sep as int < 0x80
    ensures ByteLen(Join(f, sep)) == ByteLen(f[0]) + ByteLen(f[1]) + ByteLen(f[2]) + ByteLen(f[3]) + ByteLen(f[4]) + 4
  {
    JoinFive(f, sep);
    var last := JoinTwoLength(f[3], sep, f[4]);
    var later := JoinTwoLength(f[2], sep, last);
    var rest := JoinTwoLength(f[1], sep, later);
    var all := JoinTwoLength(f[0], sep, rest);
  }

  lemma JoinTwoLength(a: string, sep: char, b: string) returns (joined: string)
    requires sep as int < 0x80
    ensures joined == a + [sep] + b && ByteLen(joined) == ByteLen(a) + 1 + ByteLen(b)
  {
    joined := a + [sep] + b;
    ByteLenConcat(a, [sep]);
    ByteLenConcat(a + [sep], b);
  }

  /** A return status is carried exactly when its session id is a valid one. */
  lemma ReturnRoundTrip(r: ReturnStatus)
    ensures ReadReturn(PrintReturn(r)) == Some(r) <==> ValidSession(r.session)
  {
    if ValidSession(r.session) {
      var f := ["s1", ProviderName(r.provider), r.session, StatusName(r.status), Flag(r.colors)];
      ProvidersParse(r.provider);
      StatusesParse(r.status);
      ProviderFits(r.provider);
      StatusFits(r.status);
      assert forall i | 0 <= i < |r.session| :: SessionChar(r.session[i]) && r.session[i] != '|';
      SplitJoin(f, '|');
      JoinFiveLength(f, '|');
    }
  }
}
