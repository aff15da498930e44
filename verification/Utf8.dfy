/** Strict UTF-8 (section 4 of RFC 3629): an encoder, and the decoder that keeps an unfinished
    character for the next piece of input. */
module Utf8 {
  import opened Wrappers
  import opened Bytes

  type Scalar = c: int | 0 <= c < 0xD800 || 0xE000 <= c < 0x11_0000

  /** Six more bits at the end. */
  function Pack(high: nat, b: Byte): nat
    requires Continuation(b)
  {
    high * 64 + (b as int - 0x80)
  }

  lemma Unpack(high: nat, b: Byte)
    requires Continuation(b)
    ensures Pack(high, b) / 64 == high && Pack(high, b) % 64 == b as int - 0x80
  {
  }

  function Trail(c: nat): (b: Byte)
    ensures Continuation(b) && Pack(c / 64, b) == c
  {
    0x80 + c % 64
  }

  function Encode(c: Scalar): (s: seq<Byte>)
    ensures 1 <= |s| <= 4
  {
    if c < 0x80 then [c]
    else if c < 0x800 then [0xC0 + c / 64, Trail(c)]
    else if c < 0x1_0000 then [0xE0 + c / 64 / 64, Trail(c / 64), Trail(c)]
    else [0xF0 + c / 64 / 64 / 64, Trail(c / 64 / 64), Trail(c / 64), Trail(c)]
  }

  function EncodeAll(text: seq<Scalar>): seq<Byte> {
    if text == [] then [] else Encode(text[0]) + EncodeAll(text[1..])
  }

  /** How many bytes a character with this first byte has; 0 when none starts with it. */
  function Length(lead: Byte): nat {
    if lead < 0x80 then 1
    else if 0xC2 <= lead < 0xE0 then 2
    else if 0xE0 <= lead < 0xF0 then 3
    else if 0xF0 <= lead < 0xF5 then 4
    else 0
  }

  predicate Continuation(b: Byte) {
    0x80 <= b < 0xC0
  }

  /** The second byte is narrower after four of the lead bytes: no overlong forms, no surrogates,
      nothing above the last code point. */
  predicate Second(lead: Byte, b: Byte) {
    && Continuation(b)
    && (lead == 0xE0 ==> 0xA0 <= b)
    && (lead == 0xED ==> b < 0xA0)
    && (lead == 0xF0 ==> 0x90 <= b)
    && (lead == 0xF4 ==> b < 0x90)
  }

  datatype Head = Char(c: Scalar, size: nat) | Unfinished | Malformed

  /** The first character of a non-empty input. Bad bytes are rejected as soon as they are seen. */
  function First(s: seq<Byte>): (h: Head)
    requires s != []
    ensures h.Char? ==> 1 <= h.size <= |s|
  {
    var n := Length(s[0]);
    if n == 0 then Malformed
    else if n >= 2 && |s| >= 2 && !Second(s[0], s[1]) then Malformed
    else if n >= 3 && |s| >= 3 && !Continuation(s[2]) then Malformed
    else if n == 4 && |s| >= 4 && !Continuation(s[3]) then Malformed
    else if |s| < n then Unfinished
    else if n == 1 then Char(s[0], 1)
    else if n == 2 then Char(Pack(s[0] as int - 0xC0, s[1]), 2)
    else if n == 3 then Char(Pack(Pack(s[0] as int - 0xE0, s[1]), s[2]), 3)
    else Char(Pack(Pack(Pack(s[0] as int - 0xF0, s[1]), s[2]), s[3]), 4)
  }

  datatype Decoding = Invalid | Decoded(text: seq<Scalar>, pending: seq<Byte>)

  /** The longest run of whole characters, and the bytes of a last unfinished one. */
  function Decode(s: seq<Byte>): Decoding {
    if s == [] then Decoded([], [])
    else
      match First(s)
      case Malformed => Invalid
      case Unfinished => Decoded([], s)
      case Char(c, n) => Prepend([c], Decode(s[n..]))
  }

  function Prepend(text: seq<Scalar>, d: Decoding): Decoding {
    match d
    case Invalid => Invalid
    case Decoded(more, pending) => Decoded(text + more, pending)
  }

  /** `bytes.decode("utf-8")`. */
  function Whole(s: seq<Byte>): Option<seq<Scalar>> {
    match Decode(s)
    case Invalid => None
    case Decoded(text, pending) => if pending == [] then Some(text) else None
  }

  // ------------------------------------------------ the decoder inverts the encoder

  lemma FirstOfEncoded(c: Scalar, rest: seq<Byte>)
    ensures First(Encode(c) + rest) == Char(c, |Encode(c)|)
  {
    var s := Encode(c) + rest;
    if c < 0x80 {
    } else if c < 0x800 {
      assert s[0] == 0xC0 + c / 64 && s[1] == Trail(c);
    } else if c < 0x1_0000 {
      assert s[0] == 0xE0 + c / 64 / 64 && s[1] == Trail(c / 64) && s[2] == Trail(c);
    } else {
      assert s[0] == 0xF0 + c / 64 / 64 / 64 && s[1] == Trail(c / 64 / 64) && s[2] == Trail(c / 64) && s[3] == Trail(c);
    }
  }

  lemma PackBounds(high: nat, b: Byte)
    requires Continuation(b)
    ensures high * 64 <= Pack(high, b) < high * 64 + 64
  {
  }

  lemma TrailOfPack(high: nat, b: Byte)
    requires Continuation(b)
    ensures Trail(Pack(high, b)) == b && Pack(high, b) / 64 == high
  {
    Unpack(high, b);
  }

  lemma TwoBytes(x: nat, b: Byte)
    requires 2 <= x < 0x20 && Continuation(b)
    ensures var c := Pack(x, b); 0x80 <= c < 0x800 && Encode(c) == [0xC0 + x, b]
  {
    PackBounds(x, b);
    TrailOfPack(x, b);
    hide Pack, Trail;
  }

  lemma ThreeBytes(x: nat, b: Byte, d: Byte)
    requires x < 0x10 && Second(0xE0 + x, b) && Continuation(d)
    ensures var c := Pack(Pack(x, b), d);
      0x800 <= c < 0x1_0000 && (c < 0xD800 || 0xE000 <= c) && Encode(c) == [0xE0 + x, b, d]
  {
    assert (x == 0 ==> Pack(x, b) >= 32) && (x == 13 ==> Pack(x, b) < 864);
    PackBounds(x, b);
    TrailOfPack(x, b);
    PackBounds(Pack(x, b), d);
    TrailOfPack(Pack(x, b), d);
    hide Pack, Trail, Second, Continuation;
  }

  lemma FourBytes(x: nat, b: Byte, d: Byte, e: Byte)
    requires x < 5 && Second(0xF0 + x, b) && Continuation(d) && Continuation(e)
    ensures var c := Pack(Pack(Pack(x, b), d), e);
      0x1_0000 <= c < 0x11_0000 && Encode(c) == [0xF0 + x, b, d, e]
  {
    assert (x == 0 ==> Pack(x, b) >= 16) && (x == 4 ==> Pack(x, b) < 272);
    var p := Pack(x, b);
    PackBounds(x, b);
    TrailOfPack(x, b);
    PackBounds(p, d);
    TrailOfPack(p, d);
    PackBounds(Pack(p, d), e);
    TrailOfPack(Pack(p, d), e);
    hide Pack, Trail, Second, Continuation;
  }

  /** What a recognised character says about its bytes. */
  lemma CharBytes(s: seq<Byte>)
    requires s != [] && First(s).Char?
    ensures var h := First(s);
      match h.size
      case 1 => s[0] < 0x80 && h.c == s[0]
      case 2 => 0xC2 <= s[0] < 0xE0 && Continuation(s[1]) && h.c == Pack(s[0] as int - 0xC0, s[1])
      case 3 => 0xE0 <= s[0] < 0xF0 && Second(s[0], s[1]) && Continuation(s[2])
                && h.c == Pack(Pack(s[0] as int - 0xE0, s[1]), s[2])
      case 4 => 0xF0 <= s[0] < 0xF5 && Second(s[0], s[1]) && Continuation(s[2]) && Continuation(s[3])
                && h.c == Pack(Pack(Pack(s[0] as int - 0xF0, s[1]), s[2]), s[3])
      case _ => false
  {
    hide Pack;
  }

  lemma EncodedOfFirst(s: seq<Byte>)
    requires s != [] && First(s).Char?
    ensures Encode(First(s).c) == s[..First(s).size]
  {
    CharBytes(s);
    var n := First(s).size;
    hide First, Pack, Second, Continuation;
    if n == 1 {
      assert Encode(s[0]) == [s[0]];
    } else if n == 2 {
      TwoBytes(s[0] - 0xC0, s[1]);
    } else if n == 3 {
      ThreeBytes(s[0] - 0xE0, s[1], s[2]);
    } else {
      FourBytes(s[0] - 0xF0, s[1], s[2], s[3]);
    }
  }

  lemma {:induction false} DecodeEncoded(text: seq<Scalar>)
    ensures Decode(EncodeAll(text)) == Decoded(text, [])
  {
    if text == [] {
    } else {
      var rest := EncodeAll(text[1..]);
      FirstOfEncoded(text[0], rest);
      hide First, Encode;
      assert (Encode(text[0]) + rest)[|Encode(text[0])|..] == rest;
      DecodeEncoded(text[1..]);
    }
  }

  lemma DecodeStep(s: seq<Byte>)
    requires s != [] && First(s).Char? && Decode(s).Decoded?
    ensures var rest := Decode(s[First(s).size..]);
      && rest.Decoded? && Decode(s).text == [First(s).c] + rest.text && Decode(s).pending == rest.pending
  {
    hide First;
  }

  lemma EncodeAllStep(c: Scalar, text: seq<Scalar>)
    ensures EncodeAll([c] + text) == Encode(c) + EncodeAll(text)
  {
    assert ([c] + text)[1..] == text;
    hide Encode;
  }

  /** Decoding stops at once on an empty or unfinished input. */
  lemma DecodeStops(s: seq<Byte>)
    requires Decode(s).Decoded? && (s == [] || !First(s).Char?)
    ensures EncodeAll(Decode(s).text) + Decode(s).pending == s
  {
    hide First;
  }

  lemma {:induction false} EncodeDecoded(s: seq<Byte>)
    requires Decode(s).Decoded?
    ensures EncodeAll(Decode(s).text) + Decode(s).pending == s
  {
    hide *;
    if s == [] || !First(s).Char? {
      DecodeStops(s);
    } else {
      var n := First(s).size;
      EncodedOfFirst(s);
      DecodeStep(s);
      EncodeDecoded(s[n..]);
      var rest := Decode(s[n..]);
      EncodeAllStep(First(s).c, rest.text);
      assert s == s[..n] + (EncodeAll(rest.text) + rest.pending);
    }
  }

  /** A byte string decodes to a text exactly when it is that text's encoding. */
  lemma WholeIsInverse(s: seq<Byte>, text: seq<Scalar>)
    ensures Whole(s) == Some(text) <==> s == EncodeAll(text)
  {
    if Whole(s) == Some(text) {
      EncodeDecoded(s);
      assert EncodeAll(text) + [] == EncodeAll(text);
    }
    DecodeEncoded(text);
  }

  // --------------------------------------------------- pieces and the whole agree

  lemma FirstIsStable(a: seq<Byte>, b: seq<Byte>)
    requires a != [] && !First(a).Unfinished?
    ensures First(a + b) == First(a)
  {
  }

  lemma PrependTwice(a: seq<Scalar>, b: seq<Scalar>, d: Decoding)
    ensures Prepend(a, Prepend(b, d)) == Prepend(a + b, d)
    ensures Prepend([], d) == d
  {
    if d.Decoded? { assert a + (b + d.text) == (a + b) + d.text && [] + d.text == d.text; }
  }

  /** What decoding `b` adds to an earlier result. */
  function Resume(d: Decoding, b: seq<Byte>): Decoding {
    match d
    case Invalid => Invalid
    case Decoded(text, pending) => Prepend(text, Decode(pending + b))
  }

  lemma PrependResume(text: seq<Scalar>, d: Decoding, b: seq<Byte>)
    ensures Resume(Prepend(text, d), b) == Prepend(text, Resume(d, b))
  {
    if d.Decoded? { PrependTwice(text, d.text, Decode(d.pending + b)); }
  }

  /** Decoding may stop anywhere: resuming with the pending bytes in front of what follows gives the
      same as decoding everything at once. */
  lemma {:induction false} DecodeInPieces(a: seq<Byte>, b: seq<Byte>)
    ensures Decode(a + b) == Resume(Decode(a), b)
  {
    if a == [] || First(a).Unfinished? {
      assert Decode(a) == Decoded([], a);
      PrependTwice([], [], Decode(a + b));
    } else {
      FirstIsStable(a, b);
      hide First, Prepend;
      if First(a).Char? {
        var c, n := First(a).c, First(a).size;
        assert (a + b)[n..] == a[n..] + b;
        DecodeInPieces(a[n..], b);
        PrependResume([c], Decode(a[n..]), b);
        hide Resume;
      }
    }
  }

  // -------------------------------------------------- how early bytes are rejected

  /** Bytes that complete an unfinished character. */
  ghost function Completion(s: seq<Byte>): seq<Byte>
    requires s != []
  {
    var second: Byte := if s[0] == 0xE0 then 0xA0 else if s[0] == 0xF0 then 0x90 else 0x80;
    if |s| >= Length(s[0]) then []
    else if |s| == 1 then [second] + seq(Length(s[0]) - 2, _ => 0x80)
    else seq(Length(s[0]) - |s|, _ => 0x80)
  }

  /** An unfinished character is the beginning of some character. */
  lemma UnfinishedIsPrefix(s: seq<Byte>) returns (c: Scalar)
    requires s != [] && First(s).Unfinished?
    ensures s < Encode(c) == s + Completion(s)
  {
    var whole := s + Completion(s);
    Completes(s);
    EncodedOfFirst(whole);
    assert whole[..|whole|] == whole;
    c := First(whole).c;
  }

  lemma Completes(s: seq<Byte>)
    requires s != [] && First(s).Unfinished?
    ensures var whole := s + Completion(s);
      |whole| > |s| && First(whole).Char? && First(whole).size == |whole|
  {
    var whole := s + Completion(s);
    assert whole[0] == s[0] && |whole| == Length(s[0]) > |s|;
    assert |s| >= 2 ==> whole[1] == s[1];
    assert |s| >= 3 ==> whole[2] == s[2];
  }

  /** Bytes are rejected exactly as soon as no text can begin with them. */
  lemma InvalidIsHopeless(s: seq<Byte>)
    ensures Decode(s).Invalid? <==> !exists text :: s <= EncodeAll(text)
  {
    hide First, Decode, Encode, EncodeAll, Completion;
    if Decode(s).Invalid? {
      forall text | s <= EncodeAll(text)
        ensures false
      {
        var rest := EncodeAll(text)[|s|..];
        assert s + rest == EncodeAll(text);
        DecodeInPieces(s, rest);
        DecodeEncoded(text);
      }
    } else {
      var text := Continued(s);
    }
  }

  lemma Continued(s: seq<Byte>) returns (text: seq<Scalar>)
    requires Decode(s).Decoded?
    ensures s <= EncodeAll(text)
  {
    EncodeDecoded(s);
    text := Decode(s).text;
    var pending := Decode(s).pending;
    if pending != [] {
      PendingIsUnfinished(s);
      var c := UnfinishedIsPrefix(pending);
      EncodeAllJoin(text, [c]);
      EncodeAllOne(c);
      hide *;
      assert EncodeAll(text) + Encode(c) == s + Encode(c)[|pending|..];
      text := text + [c];
    } else {
      assert EncodeAll(text) + [] == EncodeAll(text);
    }
  }

  lemma EncodeAllOne(c: Scalar)
    ensures EncodeAll([c]) == Encode(c)
  {
  }

  lemma {:induction false} EncodeAllJoin(a: seq<Scalar>, b: seq<Scalar>)
    ensures EncodeAll(a + b) == EncodeAll(a) + EncodeAll(b)
  {
    hide Encode;
    if a == [] {
      assert a + b == b;
    } else {
      EncodeAllJoin(a[1..], b);
      assert (a + b)[1..] == a[1..] + b;
    }
  }

  lemma {:induction false} PendingIsUnfinished(s: seq<Byte>)
    requires Decode(s).Decoded? && Decode(s).pending != []
    ensures First(Decode(s).pending).Unfinished?
    decreases |s|
  {
    hide First;
    if s != [] && First(s).Char? {
      PendingIsUnfinished(s[First(s).size..]);
    }
  }
}
