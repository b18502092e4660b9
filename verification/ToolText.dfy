/** Text of a tool cut on a character boundary (internal/agent/agent_codex_conversation.go, codexToolText).
    UTF-8 is that of RFC 3629: its syntax is section 4, its encoding section 3. */
module ToolText {

  newtype byte = x: int | 0 <= x < 256

  /** internal/runner/reasoning.go, TOOL_RESULT_LIMIT */
  const TOOL_RESULT_LIMIT := 16 * 1024

  predicate Tail(b: byte) {
    0x80 <= b <= 0xBF
  }

  /** The length of the character at the start of s by the syntax of section 4, or 0 when there is none. */
  function HeadLength(s: seq<byte>): (n: nat)
    ensures n <= 4 && n <= |s|
  {
    if |s| >= 1 && s[0] <= 0x7F then 1
    else if |s| >= 2 && 0xC2 <= s[0] <= 0xDF && Tail(s[1]) then 2
    else if |s| >= 3 && ThreeHead(s[0], s[1]) && Tail(s[2]) then 3
    else if |s| >= 4 && FourHead(s[0], s[1]) && Tail(s[2]) && Tail(s[3]) then 4
    else 0
  }

  predicate ThreeHead(a: byte, b: byte) {
    || (a == 0xE0 && 0xA0 <= b <= 0xBF)
    || (0xE1 <= a <= 0xEC && Tail(b))
    || (a == 0xED && 0x80 <= b <= 0x9F)
    || (0xEE <= a <= 0xEF && Tail(b))
  }

  predicate FourHead(a: byte, b: byte) {
    || (a == 0xF0 && 0x90 <= b <= 0xBF)
    || (0xF1 <= a <= 0xF3 && Tail(b))
    || (a == 0xF4 && 0x80 <= b <= 0x8F)
  }

  /** utf8.ValidString */
  predicate Valid(s: seq<byte>) {
    s == [] || (HeadLength(s) > 0 && Valid(s[HeadLength(s)..]))
  }

  // ---- the encoding ----

  predicate Scalar(c: int) {
    0 <= c <= 0x10FFFF && !(0xD800 <= c <= 0xDFFF)
  }

  function TailByte(c: nat): byte {
    (0x80 + c % 0x40) as byte
  }

  function Encode(c: int): (s: seq<byte>)
    requires Scalar(c)
  {
    if c <= 0x7F then [c as byte]
    else if c <= 0x7FF then [(0xC0 + c / 0x40) as byte, TailByte(c)]
    else if c <= 0xFFFF then [(0xE0 + c / 0x1000) as byte, TailByte(c / 0x40), TailByte(c)]
    else [(0xF0 + c / 0x40000) as byte, TailByte(c / 0x1000), TailByte(c / 0x40), TailByte(c)]
  }

  predicate Scalars(cs: seq<int>) {
    forall i :: 0 <= i < |cs| ==> Scalar(cs[i])
  }

  function EncodeAll(cs: seq<int>): seq<byte>
    requires Scalars(cs)
  {
    if cs == [] then [] else Encode(cs[0]) + EncodeAll(cs[1..])
  }

  function Low(b: byte): nat {
    b as nat % 0x40
  }

  function Decode(s: seq<byte>): nat
    requires HeadLength(s) > 0
  {
    match HeadLength(s)
    case 1 => s[0] as nat
    case 2 => (s[0] as nat - 0xC0) * 0x40 + Low(s[1])
    case 3 => (s[0] as nat - 0xE0) * 0x1000 + Low(s[1]) * 0x40 + Low(s[2])
    case _ => (s[0] as nat - 0xF0) * 0x40000 + Low(s[1]) * 0x1000 + Low(s[2]) * 0x40 + Low(s[3])
  }

  lemma EncodeIsHead(c: int, rest: seq<byte>)
    requires Scalar(c)
    ensures HeadLength(Encode(c) + rest) == |Encode(c)|
  {
  }

  lemma Digits(high: nat, low: nat)
    requires low < 0x40
    ensures (high * 0x40 + low) / 0x40 == high && (high * 0x40 + low) % 0x40 == low
  {
  }

  lemma DecodeThree(s: seq<byte>)
    requires HeadLength(s) == 3
    ensures Scalar(Decode(s)) && Encode(Decode(s)) == s[..3]
  {
    var a := s[0] as nat - 0xE0;
    var b := a * 0x40 + Low(s[1]);
    var c := b * 0x40 + Low(s[2]);
    assert c == Decode(s);
    Digits(a, Low(s[1]));
    Digits(b, Low(s[2]));
    assert c / 0x1000 == a;
  }

  lemma DecodeFour(s: seq<byte>)
    requires HeadLength(s) == 4
    ensures Scalar(Decode(s)) && Encode(Decode(s)) == s[..4]
  {
    var a := s[0] as nat - 0xF0;
    var b := a * 0x40 + Low(s[1]);
    var c := b * 0x40 + Low(s[2]);
    var d := c * 0x40 + Low(s[3]);
    assert d == Decode(s);
    Digits(a, Low(s[1]));
    Digits(b, Low(s[2]));
    Digits(c, Low(s[3]));
    assert d / 0x1000 == b && d / 0x40000 == a;
  }

  lemma DecodeEncodes(s: seq<byte>)
    requires HeadLength(s) > 0
    ensures Scalar(Decode(s)) && Encode(Decode(s)) == s[..HeadLength(s)]
  {
    match HeadLength(s)
    case 2 =>
    case 3 => DecodeThree(s);
    case 4 => DecodeFour(s);
    case _ =>
  }

  /** The syntax of section 4 describes exactly the encodings of section 3. */
  lemma {:induction false} EncodedIsValid(cs: seq<int>)
    requires Scalars(cs)
    ensures Valid(EncodeAll(cs))
  {
    if cs != [] {
      EncodedIsValid(cs[1..]);
      EncodeIsHead(cs[0], EncodeAll(cs[1..]));
      assert EncodeAll(cs)[|Encode(cs[0])|..] == EncodeAll(cs[1..]);
    }
  }

  lemma {:induction false} ValidIsEncoded(s: seq<byte>) returns (cs: seq<int>)
    requires Valid(s)
    ensures Scalars(cs) && EncodeAll(cs) == s
  {
    if s == [] {
      cs := [];
    } else {
      var n := HeadLength(s);
      var rest := ValidIsEncoded(s[n..]);
      DecodeEncodes(s);
      cs := [Decode(s)] + rest;
      assert cs[1..] == rest;
      assert s == s[..n] + s[n..];
    }
  }

  // ---- the cut ----

  method CodexToolText(text: seq<byte>) returns (r: seq<byte>, truncated: bool)
    ensures truncated <==> |text| > 16384
    ensures !truncated ==> r == text
    ensures truncated ==> r <= text && |r| <= TOOL_RESULT_LIMIT && Valid(r)
    ensures truncated ==> forall n :: |r| < n <= TOOL_RESULT_LIMIT ==> !Valid(text[..n])
    ensures truncated && Valid(text) ==> |r| >= TOOL_RESULT_LIMIT - 3
  {
    if |text| <= TOOL_RESULT_LIMIT {
      return text, false;
    }
    var cut := TOOL_RESULT_LIMIT;
    while cut > 0 && !Valid(text[..cut])
      invariant 0 <= cut <= TOOL_RESULT_LIMIT
      invariant forall n :: cut < n <= TOOL_RESULT_LIMIT ==> !Valid(text[..n])
    {
      cut := cut - 1;
    }
    if Valid(text) {
      var n := BoundaryNear(text, TOOL_RESULT_LIMIT);
    }
    return text[..cut], true;
  }

  /** A character is recognised by its own bytes. */
  lemma HeadOfPrefix(s: seq<byte>, n: nat)
    requires n <= |s|
    ensures HeadLength(s[..n]) > 0 ==> HeadLength(s[..n]) == HeadLength(s)
    ensures 0 < HeadLength(s) <= n ==> HeadLength(s[..n]) == HeadLength(s)
  {
  }

  /** Valid text has a character boundary within three bytes of any place. */
  lemma {:induction false} BoundaryNear(text: seq<byte>, limit: nat) returns (n: nat)
    requires Valid(text) && limit <= |text|
    ensures n <= limit <= n + 3 && Valid(text[..n])
  {
    n := 0;
    if limit > 3 {
      var h := HeadLength(text);
      var m := BoundaryNear(text[h..], limit - h);
      n := h + m;
      HeadOfPrefix(text, n);
      assert text[..n][h..] == text[h..][..m];
    }
  }

  /** What is kept of valid text is its first characters, whole: as many as fit. */
  lemma {:induction false} ValidPrefixIsWhole(cs: seq<int>, n: nat) returns (k: nat)
    requires Scalars(cs) && n <= |EncodeAll(cs)| && Valid(EncodeAll(cs)[..n])
    ensures k <= |cs| && EncodeAll(cs[..k]) == EncodeAll(cs)[..n]
  {
    if n == 0 {
      k := 0;
    } else {
      var s, h := EncodeAll(cs), |Encode(cs[0])|;
      EncodeIsHead(cs[0], EncodeAll(cs[1..]));
      HeadOfPrefix(s, n);
      assert s[..n][h..] == EncodeAll(cs[1..])[..n - h];
      var j := ValidPrefixIsWhole(cs[1..], n - h);
      k := j + 1;
      assert cs[..k][1..] == cs[1..][..j];
      assert s[..n] == Encode(cs[0]) + EncodeAll(cs[1..])[..n - h];
    }
  }
}
