/** Reading the start of a text artifact in chunks, against reading all of it at once. */
module Excerpt {
  import opened Wrappers
  import opened Bytes
  import opened Utf8

  datatype ExcerptError = NegativeLimit | Unreadable | NotUtf8 | HashMismatch

  function Concat(chunks: seq<seq<Byte>>): seq<Byte> {
    if chunks == [] then [] else Concat(chunks[..|chunks| - 1]) + chunks[|chunks| - 1]
  }

  function Take(text: seq<Scalar>, n: nat): seq<Scalar> {
    if |text| <= n then text else text[..n]
  }

  /** The simple form: decode the whole file, cut it, say whether anything was cut off. */
  function Simple(content: seq<Byte>, maxChars: int, hash: Option<string>, digest: seq<Byte> -> string)
    : Result<(seq<Scalar>, bool), ExcerptError>
  {
    if maxChars < 0 then Err(NegativeLimit)
    else
      match Whole(content)
      case None => Err(NotUtf8)
      case Some(text) =>
        if hash != Some(digest(content)) then Err(HashMismatch)
        else Ok((Take(text, maxChars), |text| > maxChars))
  }

  /** What the loop knows after the characters in `text`. */
  ghost predicate Tracks(text: seq<Scalar>, maxChars: nat, excerpt: seq<Scalar>, truncated: bool) {
    && excerpt == Take(text, maxChars + 1)
    && (truncated ==> |text| > maxChars)
  }

  /** One update of the excerpt and the flag with newly decoded characters. */
  method Append(excerpt: seq<Scalar>, truncated: bool, maxChars: nat, decoded: seq<Scalar>, ghost text: seq<Scalar>)
    returns (excerpt': seq<Scalar>, truncated': bool)
    requires Tracks(text, maxChars, excerpt, truncated)
    ensures Tracks(text + decoded, maxChars, excerpt', truncated')
  {
    excerpt', truncated' := excerpt, truncated;
    var remaining := maxChars + 1 - |excerpt|;
    if remaining > 0 {
      excerpt' := excerpt + Take(decoded, remaining);
    }
    if |decoded| > remaining {
      truncated' := true;
    }
  }

  lemma Cut(text: seq<Scalar>, maxChars: nat, excerpt: seq<Scalar>, truncated: bool)
    requires Tracks(text, maxChars, excerpt, truncated)
    ensures Take(excerpt, maxChars) == Take(text, maxChars)
    ensures truncated || |excerpt| > maxChars <==> |text| > maxChars
  {
  }

  /** However the file is cut into chunks, the result is that of the simple form. `readError` says that
      reading fails after the given chunks. */
  method ReadTextExcerpt(chunks: seq<seq<Byte>>, readError: bool, maxChars: int, hash: Option<string>,
                         digest: seq<Byte> -> string)
    returns (r: Result<(seq<Scalar>, bool), ExcerptError>)
    ensures !readError || maxChars < 0 ==> r == Simple(Concat(chunks), maxChars, hash, digest)
    ensures readError && maxChars >= 0 ==>
      r == Err(if Decode(Concat(chunks)).Invalid? then NotUtf8 else Unreadable)
  {
    if maxChars < 0 {
      return Err(NegativeLimit);
    }
    var hashed: seq<Byte> := [];
    var pending: seq<Byte> := [];
    var excerpt: seq<Scalar> := [];
    var truncated := false;
    ghost var text: seq<Scalar> := [];
    var i := 0;
    assert chunks[..0] == [] && Concat([]) == [] && Decode([]) == Decoded([], []);
    assert Tracks([], maxChars, [], false);
    hide First, Tracks, Decode, Concat;
    while i < |chunks|
      invariant 0 <= i <= |chunks|
      invariant hashed == Concat(chunks[..i])
      invariant Decode(hashed) == Decoded(text, pending)
      invariant Tracks(text, maxChars, excerpt, truncated)
    {
      DecodeInPieces(hashed, chunks[i]);
      ConcatInPieces(chunks, i);
      hashed := hashed + chunks[i];
      var decoded := Decode(pending + chunks[i]);
      if decoded.Invalid? {
        InvalidStays(chunks, i + 1);
        return Err(NotUtf8);
      }
      excerpt, truncated := Append(excerpt, truncated, maxChars, decoded.text, text);
      text := text + decoded.text;
      pending := decoded.pending;
      i := i + 1;
    }
    assert chunks[..i] == chunks;
    if readError {
      return Err(Unreadable);
    }
    // the final call of the decoder, without further input
    if pending != [] {
      return Err(NotUtf8);
    }
    if hash.None? || digest(hashed) != hash.value {
      return Err(HashMismatch);
    }
    Cut(text, maxChars, excerpt, truncated);
    return Ok((Take(excerpt, maxChars), truncated || |excerpt| > maxChars));
  }

  lemma ConcatInPieces(chunks: seq<seq<Byte>>, i: nat)
    requires i < |chunks|
    ensures Concat(chunks[..i + 1]) == Concat(chunks[..i]) + chunks[i]
  {
    assert chunks[..i + 1][..i] == chunks[..i];
  }

  lemma {:induction false} InvalidStays(chunks: seq<seq<Byte>>, i: nat)
    requires i <= |chunks| && Decode(Concat(chunks[..i])).Invalid?
    ensures Decode(Concat(chunks)).Invalid?
    decreases |chunks| - i
  {
    if i == |chunks| {
      assert chunks[..i] == chunks;
    } else {
      ConcatInPieces(chunks, i);
      DecodeInPieces(Concat(chunks[..i]), chunks[i]);
      InvalidStays(chunks, i + 1);
    }
  }
}
