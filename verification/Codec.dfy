/**
 Document frames and the text form of document ids: the server's codec as functions, the
 browser's as the loops that fill arrays and strings. Both follow section 4 of RFC 9562.
 */
module Codec {
  import opened Basics

  type Bytes = seq<Byte>

  const CHANNEL_CRDT: Byte := 1

  // ------------------------------------------------------------------
  // Hexadecimal
  // ------------------------------------------------------------------

  predicate IsLowerHex(ch: char) { '0' <= ch <= '9' || 'a' <= ch <= 'f' }

  /** Digits in either case are read; printed are lower-case ones. */
  predicate IsHex(ch: char) { IsLowerHex(ch) || 'A' <= ch <= 'F' }

  predicate AllHex(s: string) { forall i | 0 <= i < |s| :: IsHex(s[i]) }

  predicate AllLowerHex(s: string) { forall i | 0 <= i < |s| :: IsLowerHex(s[i]) }

  function LowerChar(ch: char): char {
    if 'A' <= ch <= 'F' then (ch as int - 'A' as int + 'a' as int) as char else ch
  }

  function Lowered(s: string): string { seq(|s|, i requires 0 <= i < |s| => LowerChar(s[i])) }

  lemma LoweredIsSame(s: string)
    requires forall i | 0 <= i < |s| :: IsLowerHex(s[i]) || s[i] == '-'
    ensures Lowered(s) == s
  {
  }

  function HexChar(d: nat): (ch: char)
    requires d < 16
    ensures IsLowerHex(ch) && HexValue(ch) == d
  {
    if d < 10 then (d + '0' as int) as char else (d - 10 + 'a' as int) as char
  }

  function HexValue(ch: char): (d: nat)
    requires IsHex(ch)
    ensures d < 16
  {
    if '0' <= ch <= '9' then ch as int - '0' as int
    else if 'a' <= ch <= 'f' then ch as int - 'a' as int + 10
    else ch as int - 'A' as int + 10
  }

  lemma HexCharOfValue(ch: char)
    requires IsHex(ch)
    ensures HexChar(HexValue(ch)) == LowerChar(ch)
  {
  }

  function HexOf(b: Byte): string { [HexChar(b / 16), HexChar(b % 16)] }

  function ByteOf(a: char, b: char): Byte
    requires IsHex(a) && IsHex(b)
  {
    16 * HexValue(a) + HexValue(b)
  }

  function Hex(bytes: Bytes): (s: string)
    ensures |s| == 2 * |bytes| && AllLowerHex(s)
  {
    if bytes == [] then "" else HexOf(bytes[0]) + Hex(bytes[1..])
  }

  function FromHex(s: string): (bytes: Bytes)
    requires AllHex(s)
    ensures |bytes| == |s| / 2
  {
    if |s| < 2 then [] else [ByteOf(s[0], s[1])] + FromHex(s[2..])
  }

  lemma {:induction false} FromHexOfHex(bytes: Bytes)
    ensures FromHex(Hex(bytes)) == bytes
  {
    if bytes == [] {
    } else {
      assert Hex(bytes)[2..] == Hex(bytes[1..]);
      FromHexOfHex(bytes[1..]);
    }
  }

  lemma HexOfByteOf(a: char, b: char)
    requires IsHex(a) && IsHex(b)
    ensures HexOf(ByteOf(a, b)) == [LowerChar(a), LowerChar(b)]
  {
    HexCharOfValue(a); HexCharOfValue(b);
  }

  lemma {:induction false} HexOfFromHex(s: string)
    requires AllHex(s) && |s| % 2 == 0
    ensures Hex(FromHex(s)) == Lowered(s)
  {
    if s == "" {
    } else {
      hide ByteOf, HexOf, IsHex, LowerChar;
      HexOfByteOf(s[0], s[1]);
      HexOfFromHex(s[2..]);
      assert FromHex(s)[1..] == FromHex(s[2..]);
      assert Lowered(s) == [LowerChar(s[0]), LowerChar(s[1])] + Lowered(s[2..]);
    }
  }

  lemma {:induction false} HexAt(bytes: Bytes, i: nat)
    requires i < |bytes|
    ensures Hex(bytes)[2 * i..2 * i + 2] == HexOf(bytes[i])
  {
    if i == 0 {
    } else {
      HexAt(bytes[1..], i - 1);
      assert Hex(bytes)[2..] == Hex(bytes[1..]);
      assert Hex(bytes)[2 * i..2 * i + 2] == Hex(bytes)[2..][2 * (i - 1)..2 * (i - 1) + 2];
    }
  }

  lemma {:induction false} FromHexAt(s: string, i: nat)
    requires AllHex(s) && 2 * i + 1 < |s|
    ensures FromHex(s)[i] == ByteOf(s[2 * i], s[2 * i + 1])
  {
    hide ByteOf;
    if i == 0 {
    } else {
      FromHexAt(s[2..], i - 1);
      assert FromHex(s) == [ByteOf(s[0], s[1])] + FromHex(s[2..]);
      assert FromHex(s)[i] == FromHex(s[2..])[i - 1];
    }
  }

  lemma {:induction false} HexAppend(bytes: Bytes, b: Byte)
    ensures Hex(bytes + [b]) == Hex(bytes) + HexOf(b)
  {
    if bytes != [] {
      assert (bytes + [b])[1..] == bytes[1..] + [b];
      HexAppend(bytes[1..], b);
    } else {
      assert (bytes + [b])[1..] == [];
    }
  }

  // ------------------------------------------------------------------
  // UUIDs
  // ------------------------------------------------------------------

  function Hyphenate(h: string): string
    requires |h| == 32
  {
    h[..8] + "-" + h[8..12] + "-" + h[12..16] + "-" + h[16..20] + "-" + h[20..]
  }

  /** `uuid.replace(/-/g, '')` */
  function Strip(s: string): string {
    if s == "" then "" else (if s[0] == '-' then "" else [s[0]]) + Strip(s[1..])
  }

  /** The canonical text form: 32 lower-case digits in groups of 8, 4, 4, 4 and 12. */
  predicate Canonical(s: string) {
    && |s| == 36
    && forall i | 0 <= i < 36 :: if i == 8 || i == 13 || i == 18 || i == 23 then s[i] == '-' else IsLowerHex(s[i])
  }

  /** The same with digits in either case. */
  predicate CanonicalAnyCase(s: string) {
    && |s| == 36
    && forall i | 0 <= i < 36 :: if i == 8 || i == 13 || i == 18 || i == 23 then s[i] == '-' else IsHex(s[i])
  }

  function BytesToUuid(bytes: Bytes): string
    requires |bytes| == 16
  {
    Hyphenate(Hex(bytes))
  }

  function UuidToBytes(uuid: string): Bytes
    requires AllHex(Strip(uuid))
  {
    FromHex(Strip(uuid))
  }

  lemma {:induction false} StripConcat(a: string, b: string)
    ensures Strip(a + b) == Strip(a) + Strip(b)
  {
    if a == "" {
      assert a + b == b;
    } else {
      assert (a + b)[1..] == a[1..] + b;
      StripConcat(a[1..], b);
    }
  }

  lemma {:induction false} StripHex(s: string)
    requires AllHex(s)
    ensures Strip(s) == s
  {
    if s == "" {
    } else {
      assert IsHex(s[0]);
      StripHex(s[1..]);
    }
  }

  lemma StripJoin(a: string, b: string)
    ensures Strip(a + "-" + b) == Strip(a) + Strip(b)
  {
    StripConcat(a, "-"); StripConcat(a + "-", b);
    assert Strip("-") == "" && Strip(a) + "" == Strip(a);
  }

  lemma HyphenatedIsCanonical(h: string)
    requires |h| == 32 && AllHex(h)
    ensures CanonicalAnyCase(Hyphenate(h)) && (AllLowerHex(h) ==> Canonical(Hyphenate(h)))
  {
  }

  lemma StripHyphenate(h: string)
    requires |h| == 32 && AllHex(h)
    ensures Strip(Hyphenate(h)) == h && (AllLowerHex(h) ==> Canonical(Hyphenate(h)))
  {
    hide Strip;
    var a, b, c, d, e := h[..8], h[8..12], h[12..16], h[16..20], h[20..];
    HyphenatedIsCanonical(h);
    StripHex(a); StripHex(b); StripHex(c); StripHex(d); StripHex(e);
    StripJoin(a, b); StripJoin(a + "-" + b, c);
    StripJoin(a + "-" + b + "-" + c, d); StripJoin(a + "-" + b + "-" + c + "-" + d, e);
    assert h == a + b + c + d + e;
  }

  lemma CanonicalIsHyphenated(s: string)
    requires CanonicalAnyCase(s)
    ensures var h := s[..8] + s[9..13] + s[14..18] + s[19..23] + s[24..];
            |h| == 32 && AllHex(h) && Hyphenate(h) == s
  {
    var h := s[..8] + s[9..13] + s[14..18] + s[19..23] + s[24..];
    assert h[..8] == s[..8] && h[8..12] == s[9..13] && h[12..16] == s[14..18];
    assert h[16..20] == s[19..23] && h[20..] == s[24..];
  }

  /** The text and the 16-byte form of a UUID are mutually inverse. */
  lemma UuidBytesRoundTrip(bytes: Bytes)
    requires |bytes| == 16
    ensures Canonical(BytesToUuid(bytes)) && AllHex(Strip(BytesToUuid(bytes)))
    ensures UuidToBytes(BytesToUuid(bytes)) == bytes
  {
    StripHyphenate(Hex(bytes));
    FromHexOfHex(bytes);
  }

  /** Digits in either case are read as the same UUID, which prints in lower case. */
  lemma UuidTextRoundTrip(s: string)
    requires CanonicalAnyCase(s)
    ensures AllHex(Strip(s)) && |UuidToBytes(s)| == 16 && BytesToUuid(UuidToBytes(s)) == Lowered(s)
    ensures Canonical(s) ==> BytesToUuid(UuidToBytes(s)) == s
  {
    CanonicalIsHyphenated(s);
    var h := s[..8] + s[9..13] + s[14..18] + s[19..23] + s[24..];
    StripHyphenate(h);
    HexOfFromHex(h);
    LoweredHyphenate(h);
    if Canonical(s) { LoweredIsSame(s); }
  }

  lemma LoweredHyphenate(h: string)
    requires |h| == 32
    ensures Hyphenate(Lowered(h)) == Lowered(Hyphenate(h))
  {
  }

  // ------------------------------------------------------------------
  // Frames, as the server reads and writes them
  // ------------------------------------------------------------------

  datatype Frame = Frame(documentId: string, payload: Bytes)
  datatype Result<T> = Ok(value: T) | TooShort | UnknownChannel

  function EncodeFrame(documentId: string, payload: Bytes): Bytes
    requires AllHex(Strip(documentId))
  {
    [CHANNEL_CRDT] + UuidToBytes(documentId) + payload
  }

  function DecodeFrame(frame: Bytes): Result<Frame> {
    if |frame| < 18 then TooShort
    else if frame[0] != CHANNEL_CRDT then UnknownChannel
    else Ok(Frame(BytesToUuid(frame[1..17]), frame[17..]))
  }

  /** Decoding what was encoded gives both parts back; an empty payload is refused. */
  lemma FrameRoundTrip(documentId: string, payload: Bytes)
    requires CanonicalAnyCase(documentId)
    ensures AllHex(Strip(documentId))
    ensures DecodeFrame(EncodeFrame(documentId, payload)) ==
            if payload == [] then TooShort else Ok(Frame(Lowered(documentId), payload))
    ensures |EncodeFrame(documentId, payload)| == 17 + |payload| && EncodeFrame(documentId, payload)[0] == 0x01
    ensures Canonical(documentId) ==> Lowered(documentId) == documentId
  {
    UuidTextRoundTrip(documentId);
    if Canonical(documentId) { LoweredIsSame(documentId); }
    var frame := EncodeFrame(documentId, payload);
    assert |frame| == 17 + |payload|;
    assert frame[1..17] == UuidToBytes(documentId) && frame[17..] == payload;
  }

  /** Every frame that is accepted is what its parts encode to. */
  lemma AcceptedFrameReencodes(frame: Bytes)
    requires DecodeFrame(frame).Ok?
    ensures var f := DecodeFrame(frame).value;
            && Canonical(f.documentId) && AllHex(Strip(f.documentId)) && f.payload != []
            && EncodeFrame(f.documentId, f.payload) == frame
  {
    UuidBytesRoundTrip(frame[1..17]);
    assert frame == [frame[0]] + frame[1..17] + frame[17..];
  }

  // ------------------------------------------------------------------
  // The browser's loops
  // ------------------------------------------------------------------

  method PackUuid(uuid: string) returns (out: array<Byte>)
    requires AllHex(Strip(uuid)) && |Strip(uuid)| == 32
    ensures fresh(out) && out[..] == UuidToBytes(uuid)
  {
    var hex := Strip(uuid);
    out := new Byte[16](_ => 0);
    for i := 0 to 16
      invariant forall j | 0 <= j < i :: out[j] == FromHex(hex)[j]
    {
      FromHexAt(hex, i);
      out[i] := ByteOf(hex[2 * i], hex[2 * i + 1]);
    }
  }

  method UnpackUuid(bytes: Bytes) returns (uuid: string)
    requires |bytes| == 16
    ensures uuid == BytesToUuid(bytes)
  {
    var hex := "";
    for i := 0 to 16
      invariant hex == Hex(bytes[..i])
    {
      HexAppend(bytes[..i], bytes[i]);
      assert bytes[..i + 1] == bytes[..i] + [bytes[i]];
      hex := hex + HexOf(bytes[i]);
    }
    assert bytes[..16] == bytes;
    uuid := hex[..8] + "-" + hex[8..12] + "-" + hex[12..16] + "-" + hex[16..20] + "-" + hex[20..];
  }

  method PackFrame(documentId: string, payload: Bytes) returns (frame: array<Byte>)
    requires AllHex(Strip(documentId)) && |Strip(documentId)| == 32
    ensures fresh(frame) && frame[..] == EncodeFrame(documentId, payload)
  {
    frame := new Byte[17 + |payload|](_ => 0);
    frame[0] := CHANNEL_CRDT;
    var id := PackUuid(documentId);
    for i := 0 to 16
      invariant id[..] == UuidToBytes(documentId)
      invariant frame[0] == CHANNEL_CRDT && forall j | 0 <= j < i :: frame[1 + j] == id[j]
    {
      frame[1 + i] := id[i];
    }
    for i := 0 to |payload|
      invariant id[..] == UuidToBytes(documentId)
      invariant frame[0] == CHANNEL_CRDT && forall j | 0 <= j < 16 :: frame[1 + j] == id[j]
      invariant forall j | 0 <= j < i :: frame[17 + j] == payload[j]
    {
      frame[17 + i] := payload[i];
    }
    assert frame[1..17] == id[..] && frame[17..] == payload;
    assert frame[..] == [CHANNEL_CRDT] + UuidToBytes(documentId) + payload;
  }

  /** The browser accepts exactly the frames the server accepts, and reads the same parts. */
  method UnpackFrame(frame: Bytes) returns (parts: Option<Frame>)
    ensures parts.Some? <==> DecodeFrame(frame).Ok?
    ensures parts.Some? ==> parts.value == DecodeFrame(frame).value
  {
    if |frame| < 18 || frame[0] != CHANNEL_CRDT { return None; }
    var id := UnpackUuid(frame[1..17]);
    return Some(Frame(id, frame[17..]));
  }
}
