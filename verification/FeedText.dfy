/** The text pieces of the board feed: separators, decimal counts and labels. */
module FeedText {
  import opened Wrappers
  import opened Utf8

  const USIZE_MAX: nat := 0xFFFF_FFFF_FFFF_FFFF
  const MAX_LABEL_BYTES: nat := 160

  // Separators.

  function SplitOnce(s: string, sep: char): Option<(string, string)> {
    if s == "" then None
    else if s[0] == sep then Some(("", s[1..]))
    else
      var rest := SplitOnce(s[1..], sep);
      if rest.None? then None else Some(([s[0]] + rest.value.0, rest.value.1))
  }

  function Split(s: string, sep: char): (r: seq<string>)
    ensures |r| >= 1
    decreases |s|
  {
    if s == "" then [""]
    else
      var rest := Split(s[1..], sep);
      if s[0] == sep then [""] + rest else [[s[0]] + rest[0]] + rest[1..]
  }

  lemma {:induction false} SplitOnceAt(a: string, sep: char, b: string)
    requires sep !in a
    ensures SplitOnce(a + [sep] + b, sep) == Some((a, b))
  {
    var s := a + [sep] + b;
    if a != "" {
      assert s[0] == a[0] && a[0] in a && s[1..] == a[1..] + [sep] + b;
      SplitOnceAt(a[1..], sep, b);
      assert [a[0]] + a[1..] == a;
    } else {
      assert s[1..] == b;
    }
  }

  /** The pieces between separators, one after the other. */
  lemma {:induction false} SplitFirst(a: string, sep: char, b: string)
    requires sep !in a
    ensures Split(a, sep) == [a]
    ensures Split(a + [sep] + b, sep) == [a] + Split(b, sep)
    decreases |a|
  {
    var s := a + [sep] + b;
    if a != "" {
      assert a[0] in a && s[0] == a[0] && s[1..] == a[1..] + [sep] + b;
      SplitFirst(a[1..], sep, b);
      assert [a[0]] + a[1..] == a;
    } else {
      assert s[1..] == b;
    }
  }

  function Join(parts: seq<string>, sep: char): string
    requires parts != []
    decreases |parts|
  {
    if |parts| == 1 then parts[0] else parts[0] + [sep] + Join(parts[1..], sep)
  }

  /** What is joined comes apart again, if no part holds the separator. */
  lemma {:induction false} SplitJoin(parts: seq<string>, sep: char)
    requires parts != [] && forall i | 0 <= i < |parts| :: sep !in parts[i]
    ensures Split(Join(parts, sep), sep) == parts
    decreases |parts|
  {
    if |parts| == 1 {
      SplitFirst(parts[0], sep, "");
    } else {
      SplitJoin(parts[1..], sep);
      SplitFirst(parts[0], sep, Join(parts[1..], sep));
    }
  }

  // Decimal counts.

  predicate IsDigit(c: char) { '0' <= c <= '9' }

  function Digit(n: nat): (c: char)
    requires n < 10
    ensures IsDigit(c) && DigitValue(c) == n
  {
    ('0' as int + n) as char
  }

  function Digits(n: nat): (s: string)
    ensures |s| >= 1 && forall i | 0 <= i < |s| :: IsDigit(s[i])
  {
    if n < 10 then [Digit(n)] else Digits(n / 10) + [Digit(n % 10)]
  }

  function DigitValue(c: char): nat
    requires IsDigit(c)
  {
    c as int - '0' as int
  }

  function ValueOf(s: string): nat
    requires forall i | 0 <= i < |s| :: IsDigit(s[i])
  {
    if s == "" then 0 else ValueOf(s[..|s| - 1]) * 10 + DigitValue(s[|s| - 1])
  }

  /** Reads an unsigned number: one leading plus and leading zeros pass. */
  function ParseUsize(s: string): Option<nat> {
    var digits := if s != "" && s[0] == '+' then s[1..] else s;
    if digits == "" || exists i | 0 <= i < |digits| :: !IsDigit(digits[i]) then None
    else if ValueOf(digits) > USIZE_MAX then None
    else Some(ValueOf(digits))
  }

  lemma {:induction false} DigitsValue(n: nat)
    ensures ValueOf(Digits(n)) == n
  {
    if n >= 10 {
      DigitsValue(n / 10);
      var s := Digits(n);
      assert s[..|s| - 1] == Digits(n / 10);
    } else {
      assert Digits(n)[..0] == "";
    }
  }

  lemma DigitsParse(n: nat)
    requires n <= USIZE_MAX
    ensures ParseUsize(Digits(n)) == Some(n)
  {
    DigitsValue(n);
    assert IsDigit(Digits(n)[0]);
  }

  lemma {:induction false} DigitsLength(n: nat, width: nat, limit: nat)
    requires n < limit && width >= 1 && limit == Power(width)
    ensures |Digits(n)| <= width
    decreases width
  {
    if n >= 10 {
      assert width > 1;
      DigitsLength(n / 10, width - 1, Power(width - 1));
    }
  }

  function Power(k: nat): nat { if k == 0 then 1 else 10 * Power(k - 1) }

  // Labels.

  /** The characters that are inert wherever a label is shown. `letters` says
      which characters beyond ASCII are letters or digits. */
  predicate Inert(c: char, letters: char -> bool) {
    if c as int >= 0x80 then letters(c)
    else IsDigit(c) || 'A' <= c <= 'Z' || 'a' <= c <= 'z' || c in " _-./@()"
  }

  function Kept(s: string, letters: char -> bool): string {
    if s == "" then ""
    else if Inert(s[0], letters) then [s[0]] + Kept(s[1..], letters)
    else Kept(s[1..], letters)
  }

  /** The whole characters that fit. */
  function Fitting(s: string, room: nat): string {
    if s == "" || Width(s[0]) > room then "" else [s[0]] + Fitting(s[1..], room - Width(s[0]))
  }

  function TrimStart(s: string): string { if s != "" && s[0] == ' ' then TrimStart(s[1..]) else s }

  function TrimEnd(s: string): string { if s != "" && s[|s| - 1] == ' ' then TrimEnd(s[..|s| - 1]) else s }

  function SafeLabel(s: string, letters: char -> bool): string {
    TrimEnd(TrimStart(Fitting(Kept(s, letters), MAX_LABEL_BYTES)))
  }

  /** What a safe label is, without saying how one is made. */
  predicate Safe(s: string, letters: char -> bool) {
    && (forall i | 0 <= i < |s| :: Inert(s[i], letters))
    && ByteLen(s) <= MAX_LABEL_BYTES
    && (s != "" ==> s[0] != ' ' && s[|s| - 1] != ' ')
  }

  lemma {:induction false} KeptIsInert(s: string, letters: char -> bool)
    ensures forall i | 0 <= i < |Kept(s, letters)| :: Inert(Kept(s, letters)[i], letters)
    ensures (forall i | 0 <= i < |s| :: Inert(s[i], letters)) ==> Kept(s, letters) == s
  {
    if s != "" { KeptIsInert(s[1..], letters); }
  }

  lemma {:induction false} FittingFits(s: string, room: nat)
    ensures Fitting(s, room) <= s && ByteLen(Fitting(s, room)) <= room
    ensures ByteLen(s) <= room ==> Fitting(s, room) == s
  {
    if s != "" && Width(s[0]) <= room {
      FittingFits(s[1..], room - Width(s[0]));
      assert s == [s[0]] + s[1..];
    }
  }

  /** Trimming keeps a middle part. */
  lemma {:induction false} TrimStartKeepsRest(s: string) returns (from: nat)
    ensures from <= |s| && TrimStart(s) == s[from..]
    ensures TrimStart(s) != "" ==> TrimStart(s)[0] != ' '
  {
    from := 0;
    if s != "" && s[0] == ' ' {
      var later := TrimStartKeepsRest(s[1..]);
      from := later + 1;
      assert s[1..][later..] == s[from..];
    }
  }

  lemma {:induction false} TrimEndKeepsFront(s: string) returns (to: nat)
    ensures to <= |s| && TrimEnd(s) == s[..to]
    ensures TrimEnd(s) != "" ==> TrimEnd(s)[|TrimEnd(s)| - 1] != ' '
    decreases |s|
  {
    to := |s|;
    if s != "" && s[|s| - 1] == ' ' {
      to := TrimEndKeepsFront(s[..|s| - 1]);
      assert s[..|s| - 1][..to] == s[..to];
    }
  }

  lemma PartsAddUp(s: string, k: nat)
    requires k <= |s|
    ensures ByteLen(s[..k]) + ByteLen(s[k..]) == ByteLen(s)
  {
    ByteLenConcat(s[..k], s[k..]);
    assert s[..k] + s[k..] == s;
  }

  lemma PartIsShorter(s: string, from: nat, to: nat, part: string)
    requires from <= to <= |s| && part == s[from..to]
    ensures ByteLen(part) <= ByteLen(s)
  {
    var front := s[..to];
    PartsAddUp(s, to);
    PartsAddUp(front, from);
    assert front[from..] == part;
  }

  /** A safe label is a part of what was kept. */
  lemma SafeLabelIsPart(s: string, letters: char -> bool) returns (from: nat, to: nat)
    ensures from <= to <= |Kept(s, letters)| && SafeLabel(s, letters) == Kept(s, letters)[from..to]
    ensures ByteLen(SafeLabel(s, letters)) <= MAX_LABEL_BYTES
    ensures var r := SafeLabel(s, letters); r != "" ==> r[0] != ' ' && r[|r| - 1] != ' '
  {
    var fitting := Fitting(Kept(s, letters), MAX_LABEL_BYTES);
    FittingFits(Kept(s, letters), MAX_LABEL_BYTES);
    from := TrimStartKeepsRest(fitting);
    var rest := TrimStart(fitting);
    var length := TrimEndKeepsFront(rest);
    to := from + length;
    PartIsShorter(fitting, from, to, fitting[from..to]);
    assert rest[..length] == fitting[from..to] == Kept(s, letters)[from..to];
  }

  lemma SafeIsOwnLabel(s: string, letters: char -> bool)
    requires Safe(s, letters)
    ensures SafeLabel(s, letters) == s
  {
    KeptIsInert(s, letters);
    FittingFits(s, MAX_LABEL_BYTES);
  }

  /** Whatever it is made from, a label is safe; and exactly the safe texts are
      labels of themselves. */
  lemma SafeLabelIsSafe(s: string, letters: char -> bool)
    ensures Safe(SafeLabel(s, letters), letters)
    ensures SafeLabel(s, letters) == s <==> Safe(s, letters)
  {
    KeptIsInert(s, letters);
    var from, to := SafeLabelIsPart(s, letters);
    var r := SafeLabel(s, letters);
    assert forall i | 0 <= i < |r| :: r[i] == Kept(s, letters)[from + i];
    if Safe(s, letters) { SafeIsOwnLabel(s, letters); }
  }

  /** One character of the loop below. */
  lemma FittingStep(text: string, s: string, i: nat, room: nat, letters: char -> bool)
    requires i < |s| && Inert(s[i], letters) && Width(s[i]) <= room
    ensures text + Fitting(Kept(s[i..], letters), room) == text + [s[i]]
            + Fitting(Kept(s[i + 1..], letters), room - Width(s[i]))
    ensures ByteLen(text + [s[i]]) == ByteLen(text) + Width(s[i])
  {
    assert s[i..][1..] == s[i + 1..];
    var kept := Kept(s[i..], letters);
    assert kept == [s[i]] + Kept(s[i + 1..], letters);
    assert kept[1..] == Kept(s[i + 1..], letters);
    ByteLenConcat(text, [s[i]]);
  }

  /** The loop that builds a label. */
  method BuildSafeLabel(s: string, letters: char -> bool) returns (text: string)
    ensures text == SafeLabel(s, letters)
  {
    text := "";
    var used := 0;
    var i := 0;
    while i < |s|
      invariant 0 <= i <= |s| && used == ByteLen(text) <= MAX_LABEL_BYTES
      invariant Fitting(Kept(s, letters), MAX_LABEL_BYTES) == text
                + Fitting(Kept(s[i..], letters), MAX_LABEL_BYTES - used)
    {
      assert s[i..][0] == s[i] && s[i..][1..] == s[i + 1..];
      if Inert(s[i], letters) {
        if used + Width(s[i]) > MAX_LABEL_BYTES {
          assert Kept(s[i..], letters)[0] == s[i];
          break;
        }
        FittingStep(text, s, i, MAX_LABEL_BYTES - used, letters);
        text, used := text + [s[i]], used + Width(s[i]);
      }
      i := i + 1;
    }
    assert Fitting(Kept(s, letters), MAX_LABEL_BYTES) == text;
    text := TrimEnd(TrimStart(text));
  }

  /** What a label consists of: letters, digits, spaces and `( ) - . / @ _`, by
      their code points, and beyond ASCII letters and digits. No control character
      is among them, and none that a terminal multiplexer expands. */
  lemma LabelsAreInert(s: string, letters: char -> bool, i: nat)
    requires i < |SafeLabel(s, letters)|
    ensures var c := SafeLabel(s, letters)[i] as int;
            if c >= 128 then letters(SafeLabel(s, letters)[i])
            else 48 <= c <= 57 || 65 <= c <= 90 || 97 <= c <= 122 || c in {32, 40, 41, 45, 46, 47, 64, 95}
  {
    SafeLabelIsSafe(s, letters);
  }

  /** And every one of these is kept. */
  lemma InertIsKept(c: char, letters: char -> bool)
    requires var n := c as int;
             if n >= 128 then letters(c)
             else 48 <= n <= 57 || 65 <= n <= 90 || 97 <= n <= 122 || n in {32, 40, 41, 45, 46, 47, 64, 95}
    ensures Kept([c], letters) == [c]
  {
    assert [c][1..] == [];
    if c as int < 128 { InertIsListed(c, letters); }
  }

  lemma InertIsListed(c: char, letters: char -> bool)
    requires c as int < 128
    ensures var n := c as int;
            Inert(c, letters) <==>
              48 <= n <= 57 || 65 <= n <= 90 || 97 <= n <= 122 || n in {32, 40, 41, 45, 46, 47, 64, 95}
  {
    var others := " _-./@()";
    assert forall k | 0 <= k < |others| :: others[k] as int in {32, 40, 41, 45, 46, 47, 64, 95};
    assert others[0] as int == 32 && others[1] as int == 95 && others[2] as int == 45 && others[3] as int == 46;
    assert others[4] as int == 47 && others[5] as int == 64 && others[6] as int == 40 && others[7] as int == 41;
  }
}
