/** Text as bytes: the encoding of RFC 3629, and its strict decoding. */
module Utf8 {
  import opened Wrappers

  type Byte = b: int | 0 <= b < 256

  function Width(c: char): (w: nat)
    ensures 1 <= w <= 4
  {
    if c as int < 0x80 then 1 else if c as int < 0x800 then 2 else if c as int < 0x1_0000 then 3 else 4
  }

  function EncodeChar(c: char): (b: seq<Byte>)
    ensures |b| == Width(c)
  {
    var n := c as int;
    if n < 0x80 then [n]
    else if n < 0x800 then [0xC0 + n / 64, 0x80 + n % 64]
    else if n < 0x1_0000 then [0xE0 + n / 4096, 0x80 + n / 64 % 64, 0x80 + n % 64]
    else [0xF0 + n / 26_2144, 0x80 + n / 4096 % 64, 0x80 + n / 64 % 64, 0x80 + n % 64]
  }

  function Encode(s: string): seq<Byte> {
    if s == "" then [] else EncodeChar(s[0]) + Encode(s[1..])
  }

  /** The length of a text in bytes. */
  function ByteLen(s: string): nat {
    if s == "" then 0 else Width(s[0]) + ByteLen(s[1..])
  }

  predicate Scalar(n: int) { 0 <= n < 0xD800 || 0xE000 <= n < 0x11_0000 }

  /** The value a first byte and its continuations would stand for. */
  function Candidate(b: seq<Byte>): (r: (int, nat))
    requires b != []
    ensures 1 <= r.1 <= 4
  {
    if b[0] < 0x80 then (b[0], 1)
    else if b[0] < 0xE0 then (Value(b[0], 0xC0, b[1..], 1), 2)
    else if b[0] < 0xF0 then (Value(b[0], 0xE0, b[1..], 2), 3)
    else (Value(b[0], 0xF0, b[1..], 3), 4)
  }

  function Value(first: int, mark: int, rest: seq<Byte>, count: nat): int {
    if |rest| < count then -1
    else if count == 1 then (first - mark) * 64 + More(rest[0])
    else if count == 2 then (first - mark) * 4096 + More(rest[0]) * 64 + More(rest[1])
    else if count == 3 then (first - mark) * 26_2144 + More(rest[0]) * 4096 + More(rest[1]) * 64 + More(rest[2])
    else -1
  }

  function More(b: int): int { b - 0x80 }

  /** The first character, if the bytes begin with its one proper encoding. */
  function DecodeChar(b: seq<Byte>): (r: Option<char>)
    requires b != []
    ensures r.Some? ==> EncodeChar(r.value) <= b
  {
    var (n, width) := Candidate(b);
    if !Scalar(n) || |b| < width || EncodeChar(n as char) != b[..width] then None else Some(n as char)
  }

  function Decode(b: seq<Byte>): Option<string>
    decreases |b|
  {
    if b == [] then Some("")
    else
      var first := DecodeChar(b);
      if first.None? then None
      else
        var rest := Decode(b[Width(first.value)..]);
        if rest.None? then None else Some([first.value] + rest.value)
  }

  lemma CharRoundTrip(c: char, rest: seq<Byte>)
    ensures DecodeChar(EncodeChar(c) + rest) == Some(c)
  {
    var b := EncodeChar(c) + rest;
    assert b[..Width(c)] == EncodeChar(c);
    assert forall i | 1 <= i < Width(c) :: b[1..][i - 1] == EncodeChar(c)[i];
    assert Candidate(b) == (c as int, Width(c)) by {
      var n := c as int;
      assert n / 64 / 64 == n / 4096 && n / 4096 / 64 == n / 26_2144;
    }
  }

  lemma AfterFirst(a: seq<Byte>, b: seq<Byte>)
    ensures (a + b)[|a|..] == b
  {
  }

  /** Every text is read back from its bytes. */
  lemma {:induction false} RoundTrip(s: string)
    ensures Decode(Encode(s)) == Some(s)
  {
    if s != "" {
      CharRoundTrip(s[0], Encode(s[1..]));
      AfterFirst(EncodeChar(s[0]), Encode(s[1..]));
      RoundTrip(s[1..]);
      assert s == [s[0]] + s[1..];
    }
  }

  lemma EncodeCons(c: char, s: string)
    ensures Encode([c] + s) == EncodeChar(c) + Encode(s)
  {
    assert ([c] + s)[1..] == s;
  }

  lemma Prefixed(a: seq<Byte>, b: seq<Byte>)
    requires a <= b
    ensures b == a + b[|a|..]
  {
  }

  /** Only the encoding of a text is accepted as that text. */
  lemma {:induction false} DecodeIsStrict(b: seq<Byte>)
    ensures Decode(b).Some? ==> Encode(Decode(b).value) == b
    decreases |b|
  {
    if b != [] && Decode(b).Some? {
      var c := DecodeChar(b).value;
      DecodeIsStrict(b[Width(c)..]);
      EncodeCons(c, Decode(b[Width(c)..]).value);
      Prefixed(EncodeChar(c), b);
    }
  }

  lemma {:induction false} ByteLenIsLength(s: string)
    ensures |Encode(s)| == ByteLen(s)
  {
    if s != "" { ByteLenIsLength(s[1..]); }
  }

  lemma {:induction false} ByteLenConcat(s: string, t: string)
    ensures ByteLen(s + t) == ByteLen(s) + ByteLen(t)
  {
    if s == "" {
      assert s + t == t;
    } else {
      ByteLenConcat(s[1..], t);
      assert (s + t)[1..] == s[1..] + t;
    }
  }

  lemma {:induction false} AsciiLen(s: string)
    requires forall i | 0 <= i < |s| :: s[i] as int < 0x80
    ensures ByteLen(s) == |s|
  {
    if s != "" { AsciiLen(s[1..]); }
  }

  /** An ASCII byte is only ever its own character. */
  lemma {:induction false} NoAsciiInside(s: string, c: char)
    requires c as int < 0x80 && c !in s
    ensures c as int !in Encode(s)
  {
    if s != "" {
      assert s[0] != c;
      NoAsciiInside(s[1..], c);
    }
  }
}
