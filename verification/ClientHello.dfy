/** The TLS ClientHello recogniser of the browser egress tunnel, proved to accept
    exactly the serialisations of well-formed hello messages (section 4.1.2 of RFC 8446,
    section 7.4.1.2 of RFC 5246), and the check on the first TLS record of a tunnel. */
module ClientHello {
  import opened Wrappers
  import opened Bytes

  datatype Extension = Extension(kind: nat, data: seq<Byte>)

  /** The compression methods and what follows them. */
  datatype Methods = Methods(compression: seq<Byte>, extensions: Option<seq<Extension>>)

  /** The cipher suites, two bytes each, and what follows them. */
  datatype Offer = Offer(suites: seq<Byte>, methods: Methods)

  datatype Hello = Hello(minor: Byte, random: seq<Byte>, sessionId: seq<Byte>, offer: Offer)

  // ---------------------------------------------------------------- the printer

  function ExtensionBytes(e: Extension): seq<Byte> {
    U16(e.kind) + U16(|e.data|) + e.data
  }

  function ExtensionsBytes(es: seq<Extension>): seq<Byte> {
    if es == [] then [] else ExtensionBytes(es[0]) + ExtensionsBytes(es[1..])
  }

  function ExtensionBlock(block: Option<seq<Extension>>): seq<Byte> {
    match block
    case None => []
    case Some(es) => U16(|ExtensionsBytes(es)|) + ExtensionsBytes(es)
  }

  function MethodsBytes(m: Methods): (s: seq<Byte>)
    requires |m.compression| < 256
    ensures |s| > |m.compression|
  {
    [|m.compression| as Byte] + m.compression + ExtensionBlock(m.extensions)
  }

  function OfferBytes(o: Offer): (s: seq<Byte>)
    requires |o.methods.compression| < 256
    ensures |s| > 2 + |o.suites| + |o.methods.compression|
  {
    U16(|o.suites|) + o.suites + MethodsBytes(o.methods)
  }

  function Body(h: Hello): seq<Byte>
    requires |h.sessionId| < 256 && |h.offer.methods.compression| < 256
  {
    [3, h.minor] + h.random + [|h.sessionId| as Byte] + h.sessionId + OfferBytes(h.offer)
  }

  /** The handshake message: type 1, a three-byte length, the body. */
  function Serialise(h: Hello): seq<Byte>
    requires |h.sessionId| < 256 && |h.offer.methods.compression| < 256
  {
    [1] + U24(|Body(h)|) + Body(h)
  }

  ghost predicate DistinctKinds(es: seq<Extension>) {
    forall i, j :: 0 <= i < j < |es| ==> es[i].kind != es[j].kind
  }

  ghost predicate WellFormedExtensions(es: seq<Extension>) {
    && DistinctKinds(es)
    && (forall e :: e in es ==> e.kind < 0x1_0000 && |e.data| < 0x1_0000)
    && |ExtensionsBytes(es)| < 0x1_0000
  }

  ghost predicate WellFormedMethods(m: Methods) {
    && 1 <= |m.compression| < 256
    && 0 in m.compression
    && (m.extensions.Some? ==> WellFormedExtensions(m.extensions.value))
  }

  ghost predicate WellFormedOffer(o: Offer) {
    && 2 <= |o.suites| < 0x1_0000
    && |o.suites| % 2 == 0
    && WellFormedMethods(o.methods)
  }

  ghost predicate WellFormed(h: Hello) {
    && 1 <= h.minor <= 3
    && |h.random| == 32
    && |h.sessionId| <= 32
    && WellFormedOffer(h.offer)
  }

  // ------------------------------------------------ reading inverts printing

  /** From offset `o` on, `s` is a list of extensions with types outside `seen`. */
  predicate ExtensionsFit(s: seq<Byte>, o: nat, seen: set<nat>)
    requires o <= |s|
    decreases |s| - o
  {
    if o == |s| then true
    else
      && o + 4 <= |s|
      && Read16(s[o], s[o + 1]) !in seen
      && o + 4 + Read16(s[o + 2], s[o + 3]) <= |s|
      && ExtensionsFit(s, o + 4 + Read16(s[o + 2], s[o + 3]), seen + {Read16(s[o], s[o + 1])})
  }

  function ReadExtensions(s: seq<Byte>, o: nat, seen: set<nat>): seq<Extension>
    requires o <= |s| && ExtensionsFit(s, o, seen)
    decreases |s| - o
  {
    if o == |s| then []
    else
      var kind, next := Read16(s[o], s[o + 1]), o + 4 + Read16(s[o + 2], s[o + 3]);
      [Extension(kind, s[o + 4..next])] + ReadExtensions(s, next, seen + {kind})
  }

  lemma FirstExtension(s: seq<Byte>, o: nat, e: Extension, rest: seq<Byte>)
    requires o <= |s| && s[o..] == ExtensionBytes(e) + rest
    requires e.kind < 0x1_0000 && |e.data| < 0x1_0000
    ensures var next := o + 4 + |e.data|;
      && next <= |s|
      && Read16(s[o], s[o + 1]) == e.kind && Read16(s[o + 2], s[o + 3]) == |e.data|
      && s[o + 4..next] == e.data && s[next..] == rest
  {
    var t, n := s[o..], 4 + |e.data|;
    ReadsBack16(e.kind);
    ReadsBack16(|e.data|);
    assert t[0] == U16(e.kind)[0] && t[1] == U16(e.kind)[1];
    assert t[2] == U16(|e.data|)[0] && t[3] == U16(|e.data|)[1];
    assert t[4..n] == e.data && t[n..] == rest;
  }

  /** The extensions may follow ones with types in `seen`. */
  ghost predicate Fresh(es: seq<Extension>, seen: set<nat>) {
    && DistinctKinds(es)
    && forall e :: e in es ==> e.kind < 0x1_0000 && |e.data| < 0x1_0000 && e.kind !in seen
  }

  lemma FreshTail(es: seq<Extension>, seen: set<nat>)
    requires es != [] && Fresh(es, seen)
    ensures es[0].kind < 0x1_0000 && |es[0].data| < 0x1_0000 && es[0].kind !in seen
    ensures Fresh(es[1..], seen + {es[0].kind})
  {
  }

  lemma FreshCons(e: Extension, es: seq<Extension>, seen: set<nat>)
    requires e.kind < 0x1_0000 && |e.data| < 0x1_0000 && e.kind !in seen
    requires Fresh(es, seen + {e.kind})
    ensures Fresh([e] + es, seen)
  {
  }

  lemma PrintOneMore(e: Extension, rest: seq<Extension>)
    ensures ExtensionsBytes([e] + rest) == ExtensionBytes(e) + ExtensionsBytes(rest)
  {
    assert ([e] + rest)[1..] == rest;
  }

  lemma OneMoreExtension(s: seq<Byte>, o: nat, next: nat, e: Extension, seen: set<nat>)
    requires next == o + 4 + |e.data| <= |s| && s[o + 4..next] == e.data
    requires Read16(s[o], s[o + 1]) == e.kind && e.kind !in seen && Read16(s[o + 2], s[o + 3]) == |e.data|
    requires ExtensionsFit(s, next, seen + {e.kind})
    ensures ExtensionsFit(s, o, seen)
    ensures ReadExtensions(s, o, seen) == [e] + ReadExtensions(s, next, seen + {e.kind})
  {
    hide Read16;
  }

  lemma {:induction false} ReadPrintedExtensions(s: seq<Byte>, o: nat, es: seq<Extension>, seen: set<nat>)
    requires o <= |s| && s[o..] == ExtensionsBytes(es)
    requires Fresh(es, seen)
    ensures ExtensionsFit(s, o, seen) && ReadExtensions(s, o, seen) == es
    decreases |es|
  {
    if es == [] {
    } else {
      hide *;
      var e := es[0];
      var next, rest := o + 4 + |e.data|, es[1..];
      assert es == [e] + rest;
      PrintOneMore(e, rest);
      FreshTail(es, seen);
      FirstExtension(s, o, e, ExtensionsBytes(rest));
      ReadPrintedExtensions(s, next, rest, seen + {e.kind});
      OneMoreExtension(s, o, next, e, seen);
    }
  }

  lemma ExtensionSplits(s: seq<Byte>, o: nat, next: nat)
    requires o + 4 <= next <= |s|
    ensures s[o..] == [s[o], s[o + 1]] + [s[o + 2], s[o + 3]] + s[o + 4..next] + s[next..]
  {
  }

  lemma {:induction false} PrintReadExtensions(s: seq<Byte>, o: nat, seen: set<nat>)
    requires o <= |s| && ExtensionsFit(s, o, seen)
    ensures ExtensionsBytes(ReadExtensions(s, o, seen)) == s[o..]
    ensures Fresh(ReadExtensions(s, o, seen), seen)
    decreases |s| - o
  {
    if o == |s| {
    } else {
      hide Fresh;
      var kind, next := Read16(s[o], s[o + 1]), o + 4 + Read16(s[o + 2], s[o + 3]);
      PrintReadExtensions(s, next, seen + {kind});
      WritesBack16(s[o], s[o + 1]);
      WritesBack16(s[o + 2], s[o + 3]);
      var e, rest := Extension(kind, s[o + 4..next]), ReadExtensions(s, next, seen + {kind});
      assert ReadExtensions(s, o, seen) == [e] + rest;
      hide ExtensionsFit, ReadExtensions;
      FreshCons(e, rest, seen);
      PrintOneMore(e, rest);
      ExtensionSplits(s, o, next);
    }
  }

  predicate BlockFits(s: seq<Byte>, o: nat)
    requires o <= |s|
  {
    o == |s| || (o + 2 <= |s| && o + 2 + Read16(s[o], s[o + 1]) == |s| && ExtensionsFit(s, o + 2, {}))
  }

  predicate MethodsFit(s: seq<Byte>, o: nat)
    requires o < |s|
  {
    && 1 <= s[o]
    && o + 1 + s[o] <= |s|
    && 0 in s[o + 1..o + 1 + s[o]]
    && BlockFits(s, o + 1 + s[o])
  }

  predicate OfferFits(s: seq<Byte>, o: nat)
    requires o + 2 <= |s|
  {
    var n := Read16(s[o], s[o + 1]);
    n >= 2 && n % 2 == 0 && o + 2 + n + 1 <= |s| && MethodsFit(s, o + 2 + n)
  }

  predicate BodyFits(s: seq<Byte>) {
    && |s| >= 41
    && s[0] == 3 && 1 <= s[1] <= 3
    && s[34] <= 32
    && 35 + s[34] + 2 <= |s|
    && OfferFits(s, 35 + s[34])
  }

  predicate Fits(p: seq<Byte>) {
    && |p| >= 4
    && p[0] == 1
    && Read24(p[1], p[2], p[3]) == |p| - 4
    && BodyFits(p[4..])
  }

  function ReadBlock(s: seq<Byte>, o: nat): Option<seq<Extension>>
    requires o <= |s| && BlockFits(s, o)
  {
    if o == |s| then None else Some(ReadExtensions(s, o + 2, {}))
  }

  function ReadMethods(s: seq<Byte>, o: nat): Methods
    requires o < |s| && MethodsFit(s, o)
  {
    Methods(s[o + 1..o + 1 + s[o]], ReadBlock(s, o + 1 + s[o]))
  }

  function ReadOffer(s: seq<Byte>, o: nat): Offer
    requires o + 2 <= |s| && OfferFits(s, o)
  {
    var n := Read16(s[o], s[o + 1]);
    Offer(s[o + 2..o + 2 + n], ReadMethods(s, o + 2 + n))
  }

  function ReadBody(s: seq<Byte>): Hello
    requires BodyFits(s)
  {
    Hello(s[1], s[2..34], s[35..35 + s[34]], ReadOffer(s, 35 + s[34]))
  }

  function Read(p: seq<Byte>): Hello
    requires Fits(p)
  {
    ReadBody(p[4..])
  }

  lemma ReadPrintedBlock(s: seq<Byte>, o: nat, block: Option<seq<Extension>>)
    requires block.Some? ==> WellFormedExtensions(block.value)
    requires o <= |s| && s[o..] == ExtensionBlock(block)
    ensures BlockFits(s, o) && ReadBlock(s, o) == block
  {
    match block
    case None =>
    case Some(es) =>
      ReadsBack16(|ExtensionsBytes(es)|);
      assert s[o..][0] == s[o] && s[o..][1] == s[o + 1];
      assert s[o + 2..] == s[o..][2..] == ExtensionsBytes(es);
      ReadPrintedExtensions(s, o + 2, es, {});
  }

  lemma PrintReadBlock(s: seq<Byte>, o: nat)
    requires o <= |s| && BlockFits(s, o)
    ensures var block := ReadBlock(s, o);
      && (block.Some? ==> WellFormedExtensions(block.value))
      && ExtensionBlock(block) == s[o..]
  {
    if o < |s| {
      PrintReadExtensions(s, o + 2, {});
      WritesBack16(s[o], s[o + 1]);
      assert s[o..] == [s[o], s[o + 1]] + s[o + 2..];
    }
  }

  lemma MethodsLayout(s: seq<Byte>, o: nat, compression: seq<Byte>, rest: seq<Byte>)
    requires |compression| < 256
    requires o <= |s| && s[o..] == [|compression| as Byte] + compression + rest
    ensures var n := |compression|;
      && o + 1 + n + |rest| == |s|
      && s[o] == n && s[o + 1..o + 1 + n] == compression && s[o + 1 + n..] == rest
  {
  }

  lemma ReadPrintedMethods(s: seq<Byte>, o: nat, m: Methods)
    requires WellFormedMethods(m)
    requires o < |s| && s[o..] == MethodsBytes(m)
    ensures MethodsFit(s, o) && ReadMethods(s, o) == m
  {
    hide ExtensionBlock, BlockFits, ReadBlock, WellFormedExtensions;
    MethodsLayout(s, o, m.compression, ExtensionBlock(m.extensions));
    ReadPrintedBlock(s, o + 1 + |m.compression|, m.extensions);
  }

  lemma PrintReadMethods(s: seq<Byte>, o: nat)
    requires o < |s| && MethodsFit(s, o)
    ensures WellFormedMethods(ReadMethods(s, o)) && MethodsBytes(ReadMethods(s, o)) == s[o..]
  {
    hide WellFormedExtensions, BlockFits, ReadBlock, ExtensionBlock;
    PrintReadBlock(s, o + 1 + s[o]);
    assert s[o..] == [s[o]] + s[o + 1..o + 1 + s[o]] + s[o + 1 + s[o]..];
  }

  lemma OfferLayout(s: seq<Byte>, o: nat, suites: seq<Byte>, rest: seq<Byte>)
    requires |suites| < 0x1_0000
    requires o <= |s| && s[o..] == U16(|suites|) + suites + rest
    ensures var n := |suites|;
      && o + 2 + n + |rest| == |s|
      && Read16(s[o], s[o + 1]) == n && s[o + 2..o + 2 + n] == suites && s[o + 2 + n..] == rest
  {
    var t, n := s[o..], |suites|;
    ReadsBack16(n);
    assert t[0] == s[o] && t[1] == s[o + 1];
    assert s[o + 2..o + 2 + n] == t[2..2 + n] == suites;
    assert s[o + 2 + n..] == t[2 + n..] == rest;
  }

  lemma ReadPrintedOffer(s: seq<Byte>, o: nat, offer: Offer)
    requires WellFormedOffer(offer)
    requires o + 2 <= |s| && s[o..] == OfferBytes(offer)
    ensures OfferFits(s, o) && ReadOffer(s, o) == offer
  {
    hide MethodsBytes, WellFormedExtensions, MethodsFit, ReadMethods;
    OfferLayout(s, o, offer.suites, MethodsBytes(offer.methods));
    hide OfferBytes;
    ReadPrintedMethods(s, o + 2 + |offer.suites|, offer.methods);
  }

  lemma PrintReadOffer(s: seq<Byte>, o: nat)
    requires o + 2 <= |s| && OfferFits(s, o)
    ensures WellFormedOffer(ReadOffer(s, o)) && OfferBytes(ReadOffer(s, o)) == s[o..]
  {
    hide MethodsFit, ReadMethods, WellFormedMethods, MethodsBytes;
    var n := Read16(s[o], s[o + 1]);
    PrintReadMethods(s, o + 2 + n);
    WritesBack16(s[o], s[o + 1]);
    assert s[o..] == [s[o], s[o + 1]] + s[o + 2..o + 2 + n] + s[o + 2 + n..];
  }

  lemma BodyLayout(minor: Byte, random: seq<Byte>, sessionId: seq<Byte>, rest: seq<Byte>)
    requires |random| == 32 && |sessionId| < 256
    ensures var s := [3, minor] + random + [|sessionId| as Byte] + sessionId + rest;
      var n := |sessionId|;
      && |s| == 35 + n + |rest|
      && s[0] == 3 && s[1] == minor && s[2..34] == random
      && s[34] == n && s[35..35 + n] == sessionId && s[35 + n..] == rest
  {
  }

  lemma ReadPrintedBody(h: Hello)
    requires WellFormed(h)
    ensures BodyFits(Body(h)) && ReadBody(Body(h)) == h
  {
    hide OfferFits, ReadOffer, WellFormedExtensions, OfferBytes;
    BodyLayout(h.minor, h.random, h.sessionId, OfferBytes(h.offer));
    var s := Body(h);
    hide Body;
    ReadPrintedOffer(s, 35 + |h.sessionId|, h.offer);
  }

  lemma BodyIsShort(h: Hello)
    requires WellFormed(h)
    ensures |Body(h)| < 0x100_0000
  {
  }

  lemma PrintReadBody(s: seq<Byte>)
    requires BodyFits(s)
    ensures WellFormed(ReadBody(s)) && Body(ReadBody(s)) == s
  {
    hide OfferFits, ReadOffer, WellFormedOffer, OfferBytes;
    PrintReadOffer(s, 35 + s[34]);
    assert s == [s[0], s[1]] + s[2..34] + [s[34]] + s[35..35 + s[34]] + s[35 + s[34]..];
  }

  /** Every well-formed hello is accepted and read back unchanged. */
  lemma ReadSerialised(h: Hello)
    requires WellFormed(h)
    ensures Fits(Serialise(h)) && Read(Serialise(h)) == h
  {
    hide BodyFits, ReadBody, WellFormedExtensions, Body;
    ReadPrintedBody(h);
    BodyIsShort(h);
    ReadsBack24(|Body(h)|);
    assert Serialise(h)[4..] == Body(h);
  }

  /** Every accepted payload is the serialisation of the hello read from it. */
  lemma SerialiseRead(p: seq<Byte>)
    requires Fits(p)
    ensures WellFormed(Read(p)) && Serialise(Read(p)) == p
  {
    hide BodyFits, ReadBody, WellFormed, Body;
    PrintReadBody(p[4..]);
    WritesBack24(p[1], p[2], p[3]);
    assert p == [p[0]] + [p[1], p[2], p[3]] + p[4..];
  }

  /** No payload serialises two different hellos, so the accepted hello is unique. */
  lemma SerialiseInjective(h: Hello, h': Hello)
    requires WellFormed(h) && WellFormed(h')
    requires Serialise(h) == Serialise(h')
    ensures h == h'
  {
    ReadSerialised(h);
    ReadSerialised(h');
  }

  ghost predicate IsHello(p: seq<Byte>) {
    exists h :: WellFormed(h) && Serialise(h) == p
  }

  lemma FitsExactlyHellos(p: seq<Byte>)
    ensures Fits(p) <==> IsHello(p)
  {
    if Fits(p) {
      SerialiseRead(p);
    }
    forall h | WellFormed(h) && Serialise(h) == p
      ensures Fits(p)
    {
      ReadSerialised(h);
    }
  }

  // ---------------------------------------------------------------- the recogniser

  /** The extension loop: a cursor and the set of types met so far. */
  method CompleteExtensions(body: seq<Byte>, start: nat) returns (complete: bool)
    requires start <= |body|
    ensures complete <==> ExtensionsFit(body, start, {})
  {
    var offset, extensionsEnd := start, |body|;
    var seen: set<nat> := {};
    while offset < extensionsEnd
      invariant offset <= extensionsEnd
      invariant ExtensionsFit(body, start, {}) <==> ExtensionsFit(body, offset, seen)
    {
      if offset + 4 > extensionsEnd {
        return false;
      }
      var kind := Read16(body[offset], body[offset + 1]);
      if kind in seen {
        return false;
      }
      seen := seen + {kind};
      var extensionLength := Read16(body[offset + 2], body[offset + 3]);
      offset := offset + 4;
      if offset + extensionLength > extensionsEnd {
        return false;
      }
      offset := offset + extensionLength;
    }
    return offset == extensionsEnd;
  }

  /** The fields of the body, one cursor step each. */
  method IsCompleteBody(body: seq<Byte>) returns (ok: bool)
    ensures ok <==> BodyFits(body)
  {
    hide ExtensionsFit;
    if |body| < 41 || body[0] != 0x03 || !(0x01 <= body[1] <= 0x03) {
      return false;
    }
    var offset := 2 + 32;
    var sessionIdLength := body[offset];
    if sessionIdLength > 32 {
      return false;
    }
    offset := offset + 1;
    if offset + sessionIdLength + 2 > |body| {
      return false;
    }
    offset := offset + sessionIdLength;
    assert BodyFits(body) <==> OfferFits(body, offset);
    hide BodyFits;

    var suitesLength := Read16(body[offset], body[offset + 1]);
    offset := offset + 2;
    if suitesLength < 2 || suitesLength % 2 != 0 {
      return false;
    }
    if offset + suitesLength + 1 > |body| {
      return false;
    }
    offset := offset + suitesLength;
    assert BodyFits(body) <==> MethodsFit(body, offset);
    hide OfferFits;

    var compressionLength := body[offset];
    offset := offset + 1;
    if compressionLength < 1 || offset + compressionLength > |body| {
      return false;
    }
    if 0 !in body[offset..offset + compressionLength] {
      return false;
    }
    offset := offset + compressionLength;
    assert BodyFits(body) <==> BlockFits(body, offset);
    hide MethodsFit;
    if offset == |body| {
      return true;
    }
    if offset + 2 > |body| {
      return false;
    }

    var extensionsLength := Read16(body[offset], body[offset + 1]);
    offset := offset + 2;
    if offset + extensionsLength != |body| {
      return false;
    }
    ok := CompleteExtensions(body, offset);
  }

  /** A payload is let through exactly when it is the serialisation of a well-formed hello. */
  method IsCompleteClientHello(payload: seq<Byte>) returns (ok: bool)
    ensures ok <==> IsHello(payload)
  {
    FitsExactlyHellos(payload);
    hide IsHello, BodyFits;
    if |payload| < 4 || payload[0] != 0x01 {
      return false;
    }
    var handshakeLength := Read24(payload[1], payload[2], payload[3]);
    if handshakeLength != |payload| - 4 {
      return false;
    }
    ok := IsCompleteBody(payload[4..]);
  }

  // ------------------------------------------- the first record of a tunnel

  const MAX_TLS_PLAINTEXT_BYTES := 16 * 1024

  /** One end of a tunnel: the bytes still to arrive, those already sent to it, and how many receives from
      it and sendings to it have failed. */
  class Peer {
    var incoming: seq<Byte>
    var sent: seq<Byte>
    var failedReceives: nat
    var failedSends: nat

    constructor (bytes: seq<Byte>)
      ensures incoming == bytes && sent == [] && failedReceives == 0 && failedSends == 0
    {
      incoming, sent, failedReceives, failedSends := bytes, [], 0, 0;
    }

    /** A receive yields any non-empty piece of what arrives, an empty piece once the
        stream has ended, or fails (a timeout or a reset). */
    method Recv(max: nat) returns (r: Option<seq<Byte>>)
      requires max > 0
      modifies this`incoming, this`failedReceives
      ensures failedReceives == old(failedReceives) + if r.None? then 1 else 0
      ensures r.None? ==> incoming == old(incoming)
      ensures r.Some? ==> |r.value| <= max && old(incoming) == r.value + incoming
      ensures r == Some([]) ==> old(incoming) == []
    {
      if * {
        failedReceives := failedReceives + 1;
        return None;
      }
      if incoming == [] {
        return Some([]);
      }
      var n: nat :| 1 <= n <= max && n <= |incoming|;
      r := Some(incoming[..n]);
      incoming := incoming[n..];
    }

    /** `sendall`: everything is sent, or it raises after some of it. */
    method SendAll(bytes: seq<Byte>) returns (ok: bool, ghost count: nat)
      modifies this`sent, this`failedSends
      ensures count <= |bytes| && sent == old(sent) + bytes[..count]
      ensures ok ==> count == |bytes|
      ensures failedSends == old(failedSends) + if ok then 0 else 1
    {
      count := |bytes|;
      var n := |bytes|;
      ok := *;
      if !ok {
        failedSends := failedSends + 1;
        n :| 0 <= n <= |bytes|;
      }
      sent, count := sent + bytes[..n], n;
    }
  }

  datatype ReceiveError = Closed | SocketFailed

  /** Exactly `length` bytes however the stream is cut into pieces, unless a receive fails or the stream is
      too short. */
  method RecvExact(connection: Peer, length: nat) returns (r: Result<seq<Byte>, ReceiveError>)
    modifies connection`incoming, connection`failedReceives
    ensures connection.failedReceives == old(connection.failedReceives) + if r == Err(SocketFailed) then 1 else 0
    ensures r.Ok? ==> |r.value| == length && old(connection.incoming) == r.value + connection.incoming
    ensures r == Err(Closed) ==> |old(connection.incoming)| < length
  {
    var chunks: seq<Byte> := [];
    var remaining := length;
    while remaining > 0
      invariant 0 <= remaining && |chunks| + remaining == length
      invariant old(connection.incoming) == chunks + connection.incoming
      invariant connection.failedReceives == old(connection.failedReceives)
    {
      var chunk := connection.Recv(remaining);
      if chunk.None? {
        return Err(SocketFailed);
      }
      if chunk.value == [] {
        return Err(Closed);
      }
      chunks := chunks + chunk.value;
      remaining := remaining - |chunk.value|;
    }
    return Ok(chunks);
  }

  /** A TLS record (section 5.1 of RFC 8446) of content type handshake. */
  function Record(minor: Byte, payload: seq<Byte>): seq<Byte> {
    [0x16, 0x03, minor] + U16(|payload|) + payload
  }

  ghost predicate IsHelloRecord(bytes: seq<Byte>) {
    exists minor, h ::
      && 1 <= minor <= 3 && WellFormed(h)
      && 4 <= |Serialise(h)| <= 16384
      && bytes == Record(minor, Serialise(h))
  }

  ghost predicate StartsWithHelloRecord(stream: seq<Byte>) {
    exists first :: IsHelloRecord(first) && first <= stream
  }

  /** What the five header bytes say about a stream that starts with a hello record. */
  lemma RecordLayout(minor: Byte, payload: seq<Byte>, rest: seq<Byte>)
    requires |payload| < 0x1_0000
    ensures var s := Record(minor, payload) + rest;
      && |s| == 5 + |payload| + |rest|
      && s[0] == 0x16 && s[1] == 0x03 && s[2] == minor
      && Read16(s[3], s[4]) == |payload| && s[5..5 + |payload|] == payload
  {
  }

  lemma StartDetermined(stream: seq<Byte>)
    requires StartsWithHelloRecord(stream)
    ensures |stream| >= 9
    ensures stream[0] == 0x16 && stream[1] == 0x03 && 1 <= stream[2] <= 3
    ensures var n := Read16(stream[3], stream[4]);
      4 <= n <= MAX_TLS_PLAINTEXT_BYTES && 5 + n <= |stream| && IsHello(stream[5..5 + n])
  {
    hide Body, WellFormedExtensions, Record;
    var first :| IsHelloRecord(first) && first <= stream;
    var minor, h :| && 1 <= minor <= 3 && WellFormed(h)
                    && 4 <= |Serialise(h)| <= MAX_TLS_PLAINTEXT_BYTES
                    && first == Record(minor, Serialise(h));
    RecordLayout(minor, Serialise(h), stream[|first|..]);
    assert stream == first + stream[|first|..];
  }

  lemma RecordFromParts(head: seq<Byte>, payload: seq<Byte>)
    requires |head| == 5 && head[0] == 0x16 && head[1] == 0x03 && 1 <= head[2] <= 3
    requires Read16(head[3], head[4]) == |payload| && 4 <= |payload| <= MAX_TLS_PLAINTEXT_BYTES
    requires IsHello(payload)
    ensures IsHelloRecord(head + payload)
  {
    var h :| WellFormed(h) && Serialise(h) == payload;
    hide WellFormed, Serialise;
    WritesBack16(head[3], head[4]);
    assert head == [head[0], head[1], head[2]] + [head[3], head[4]];
    assert head + payload == Record(head[2], Serialise(h));
  }

  /** The header of a handshake record of an allowed size. */
  ghost predicate GoodHeader(stream: seq<Byte>) {
    && |stream| >= 5 && stream[0] == 0x16 && stream[1] == 0x03 && 1 <= stream[2] <= 3
    && 4 <= Read16(stream[3], stream[4]) <= 16384
  }

  /** The stream ends before the first record does. */
  ghost predicate CutShort(stream: seq<Byte>) {
    |stream| < 5 || (GoodHeader(stream) && |stream| < 5 + Read16(stream[3], stream[4]))
  }

  datatype Relay = Forwarded(record: seq<Byte>) | Refused | Failed(error: ReceiveError) | SendFailed(record: seq<Byte>)

  /** The upstream sees nothing before a whole ClientHello record has arrived; then it sees exactly that
      record, or a part of it if sending fails. When no socket fails a stream is forwarded, in whatever
      pieces it arrives, exactly if it starts with such a record. */
  method RelayTlsTunnel(client: Peer, upstream: Peer) returns (r: Relay)
    requires client != upstream
    modifies client`incoming, client`failedReceives, upstream`sent, upstream`failedSends
    ensures client.failedReceives == old(client.failedReceives) + if r == Failed(SocketFailed) then 1 else 0
    ensures upstream.failedSends == old(upstream.failedSends) + if r.SendFailed? then 1 else 0
    ensures client.failedReceives == old(client.failedReceives) && upstream.failedSends == old(upstream.failedSends) ==>
      (r.Forwarded? <==> StartsWithHelloRecord(old(client.incoming)))
    ensures r.Refused? || r.Failed? ==> upstream.sent == old(upstream.sent)
    ensures r.Forwarded? || r.SendFailed? ==>
      IsHelloRecord(r.record) && old(client.incoming) == r.record + client.incoming
    ensures r.Forwarded? ==> upstream.sent == old(upstream.sent) + r.record
    ensures r.SendFailed? ==> old(upstream.sent) <= upstream.sent <= old(upstream.sent) + r.record
    ensures r == Refused || r == Failed(Closed) ==> !StartsWithHelloRecord(old(client.incoming))
    ensures r == Failed(Closed) ==> CutShort(old(client.incoming))
    ensures r == Refused ==> !CutShort(old(client.incoming))
  {
    hide *;
    ghost var stream := client.incoming;
    var header := RecvExact(client, 5);
    if header.Err? {
      NoHeader(stream);
      assert header.error.SocketFailed? || header == Err(Closed);
      return Failed(header.error);
    }
    var head := header.value;
    var recordLength := Read16(head[3], head[4]);
    HeaderOf(stream, head, recordLength);
    if || head[0] != 0x16 || head[1] != 0x03 || !(0x01 <= head[2] <= 0x03)
       || recordLength < 4 || recordLength > MAX_TLS_PLAINTEXT_BYTES
    {
      return Refused;
    }
    var payload := RecvExact(client, recordLength);
    if payload.Err? {
      assert payload.error.SocketFailed? || payload == Err(Closed);
      return Failed(payload.error);
    }
    var hello := IsCompleteClientHello(payload.value);
    PayloadOf(stream, head, payload.value, client.incoming);
    if !hello {
      return Refused;
    }
    var record := head + payload.value;
    ghost var before := upstream.sent;
    var ok, count := upstream.SendAll(record);
    assert record == record[..count] + record[count..];
    assert before + record == before + record[..count] + record[count..];
    return if ok then Forwarded(record) else SendFailed(record);
  }

  lemma NoHeader(stream: seq<Byte>)
    ensures |stream| < 5 ==> CutShort(stream) && !StartsWithHelloRecord(stream)
  {
    hide StartsWithHelloRecord, GoodHeader;
    if StartsWithHelloRecord(stream) {
      StartDetermined(stream);
    }
  }

  /** What the first five bytes of a stream say. */
  lemma HeaderOf(stream: seq<Byte>, head: seq<Byte>, n: nat)
    requires |head| == 5 && head <= stream && n == Read16(head[3], head[4])
    ensures var good := head[0] == 0x16 && head[1] == 0x03 && 1 <= head[2] <= 3 && 4 <= n <= MAX_TLS_PLAINTEXT_BYTES;
      && (!good ==> !CutShort(stream) && !StartsWithHelloRecord(stream))
      && (good && |stream| < 5 + n ==> CutShort(stream) && !StartsWithHelloRecord(stream))
  {
    hide StartsWithHelloRecord, Read16;
    assert forall k :: 0 <= k < 5 ==> stream[k] == head[k];
    if StartsWithHelloRecord(stream) {
      StartDetermined(stream);
    }
  }

  /** What the first record of a stream says. */
  lemma PayloadOf(stream: seq<Byte>, head: seq<Byte>, payload: seq<Byte>, rest: seq<Byte>)
    requires |head| == 5 && stream == head + (payload + rest) && |payload| == Read16(head[3], head[4])
    requires head[0] == 0x16 && head[1] == 0x03 && 1 <= head[2] <= 3 && 4 <= |payload| <= MAX_TLS_PLAINTEXT_BYTES
    ensures !CutShort(stream) && stream == head + payload + rest
    ensures IsHello(payload) <==> StartsWithHelloRecord(stream)
    ensures IsHello(payload) ==> IsHelloRecord(head + payload)
  {
    hide IsHello, IsHelloRecord, Read16;
    assert forall k :: 0 <= k < 5 ==> stream[k] == head[k];
    assert stream == head + payload + rest && stream[5..5 + |payload|] == payload;
    if IsHello(payload) {
      RecordFromParts(head, payload);
      assert head + payload <= stream;
    } else if StartsWithHelloRecord(stream) {
      StartDetermined(stream);
    }
  }
}
