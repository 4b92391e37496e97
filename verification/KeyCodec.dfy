// Storage keys of Product Brief records: the key codec of
// apps/web/lib/product-brief-persistence.ts, over encodeURIComponent and
// decodeURIComponent (percent-encoding of section 2.1 of RFC 3986).
module KeyCodec {
  import opened Texts
  import opened Json

  datatype BriefIdentity = BriefIdentity(workspaceId: Text, productId: Text)

  const PERCENT: CodeUnit := 37

  const PREFIX := Ascii("commercevision.product-brief.v2:")

  type Byte = b: int | 0 <= b < 256

  // --------------------------------------------------------------- encoding

  // The characters encodeURIComponent leaves alone.
  predicate Unreserved(c: CodeUnit) {
    48 <= c <= 57 || 65 <= c <= 90 || 97 <= c <= 122 || c in {33, 39, 40, 41, 42, 45, 46, 95, 126}
  }

  function UpperHex(n: int): CodeUnit
    requires 0 <= n < 16
  {
    if n < 10 then 48 + n else 55 + n
  }

  function PercentByte(b: Byte): Text {
    [PERCENT, UpperHex(b / 16), UpperHex(b % 16)]
  }

  function PercentBytes(bytes: seq<Byte>): Text {
    if bytes == [] then [] else PercentByte(bytes[0]) + PercentBytes(bytes[1..])
  }

  type CodePoint = n: int | 0 <= n < 0x110000

  function Utf8(p: CodePoint): seq<Byte> {
    if p < 0x80 then [p]
    else if p < 0x800 then [0xC0 + p / 64, 0x80 + p % 64]
    else if p < 0x10000 then [0xE0 + p / 4096, 0x80 + p / 64 % 64, 0x80 + p % 64]
    else [0xF0 + p / 262144, 0x80 + p / 4096 % 64, 0x80 + p / 64 % 64, 0x80 + p % 64]
  }

  // The code point at the start of a text, if it is not a lone surrogate.
  function FirstPoint(t: Text): Option<CodePoint>
    requires t != []
  {
    if LowSurrogate(t[0]) then None
    else if !HighSurrogate(t[0]) then Some(t[0])
    else if |t| < 2 || !LowSurrogate(t[1]) then None
    else Some((t[0] as int - 0xD800) * 0x400 + (t[1] as int - 0xDC00) + 0x10000)
  }

  function Units(p: CodePoint): Text {
    if p < 0x10000 then [p] else [0xD800 + (p - 0x10000) / 0x400, 0xDC00 + (p - 0x10000) % 0x400]
  }

  // encodeURIComponent; None where it throws.
  function Encode(t: Text): Option<Text>
    decreases |t|
  {
    if t == [] then Some([])
    else if Unreserved(t[0]) then
      match Encode(t[1..])
      case None => None
      case Some(rest) => Some([t[0]] + rest)
    else
      match FirstPoint(t)
      case None => None
      case Some(p) =>
        match Encode(t[|Units(p)|..])
        case None => None
        case Some(rest) => Some(PercentBytes(Utf8(p)) + rest)
  }

  // --------------------------------------------------------------- decoding

  function HexValue(c: CodeUnit): Option<int> {
    if 48 <= c <= 57 then Some(c - 48)
    else if 65 <= c <= 70 then Some(c - 55)
    else if 97 <= c <= 102 then Some(c - 87)
    else None
  }

  function ByteAt(t: Text, i: nat): Option<int> {
    if i + 3 > |t| || t[i] != PERCENT || HexValue(t[i + 1]).None? || HexValue(t[i + 2]).None? then None
    else Some(HexValue(t[i + 1]).value * 16 + HexValue(t[i + 2]).value)
  }

  function Continuation(t: Text, i: nat): Option<int> {
    match ByteAt(t, i)
    case Some(b) => if 0x80 <= b < 0xC0 then Some(b - 0x80) else None
    case None => None
  }

  predicate Scalar(p: int, minimum: int) { minimum <= p < 0x110000 && !(0xD800 <= p < 0xE000) }

  // The code point encoded at the start of a text, and how many bytes it takes.
  function DecodedPoint(t: Text): Option<(int, nat)> {
    match ByteAt(t, 0)
    case None => None
    case Some(b) =>
      var c1, c2, c3 := Continuation(t, 3), Continuation(t, 6), Continuation(t, 9);
      if b < 0x80 then Some((b, 1))
      else if 0xC0 <= b < 0xE0 && c1.Some? && Scalar((b - 0xC0) * 64 + c1.value, 0x80) then
        Some(((b - 0xC0) * 64 + c1.value, 2))
      else if 0xE0 <= b < 0xF0 && c1.Some? && c2.Some? && Scalar((b - 0xE0) * 4096 + c1.value * 64 + c2.value, 0x800) then
        Some(((b - 0xE0) * 4096 + c1.value * 64 + c2.value, 3))
      else if 0xF0 <= b < 0xF8 && c1.Some? && c2.Some? && c3.Some?
              && Scalar((b - 0xF0) * 262144 + c1.value * 4096 + c2.value * 64 + c3.value, 0x10000) then
        Some(((b - 0xF0) * 262144 + c1.value * 4096 + c2.value * 64 + c3.value, 4))
      else None
  }

  lemma DecodedInside(t: Text)
    ensures DecodedPoint(t).Some? ==>
      var (p, n) := DecodedPoint(t).value; 0 <= p < 0x110000 && 1 <= n && 3 * n <= |t|
  {
  }

  // decodeURIComponent; None where it throws.
  function Decode(t: Text): Option<Text>
    decreases |t|
  {
    if t == [] then Some([])
    else if t[0] != PERCENT then
      match Decode(t[1..])
      case None => None
      case Some(rest) => Some([t[0]] + rest)
    else
      match DecodedPoint(t)
      case None => None
      case Some((p, n)) =>
        DecodedInside(t);
        match Decode(t[3 * n..])
        case None => None
        case Some(rest) => Some(Units(p) + rest)
  }

  // ------------------------------------------------------------ storage keys

  predicate Bounded(identity: BriefIdentity) {
    1 <= |identity.workspaceId| <= 128 && 1 <= |identity.productId| <= 36
  }

  // productBriefPersistenceKey; None where it throws.
  function KeyOf(identity: BriefIdentity): Option<Text> {
    if !Bounded(identity) then None
    else
      match (Encode(identity.workspaceId), Encode(identity.productId))
      case (Some(workspace), Some(product)) => Some(PREFIX + workspace + [COLON] + product)
      case _ => None
  }

  function LastIndexOf(t: Text, c: CodeUnit): int {
    if t == [] then -1
    else if t[|t| - 1] == c then |t| - 1
    else LastIndexOf(t[..|t| - 1], c)
  }

  // identityFromPersistenceKey.
  function IdentityFrom(key: Text): Option<BriefIdentity> {
    if !(PREFIX <= key) then None
    else
      var encoded := key[|PREFIX|..];
      var separator := IndexOf(encoded, COLON);
      if separator < 1 || separator != LastIndexOf(encoded, COLON) then None
      else
        match (Decode(encoded[..separator]), Decode(encoded[separator + 1..]))
        case (Some(workspaceId), Some(productId)) =>
          var identity := BriefIdentity(workspaceId, productId);
          if KeyOf(identity) == Some(key) then Some(identity) else None
        case _ => None
  }

  // ------------------------------------------------------------------ proofs

  lemma PointUnits(t: Text)
    requires t != [] && FirstPoint(t).Some?
    ensures |Units(FirstPoint(t).value)| <= |t| && t[..|Units(FirstPoint(t).value)|] == Units(FirstPoint(t).value)
    ensures !(0xD800 <= FirstPoint(t).value < 0xE000)
  {
  }

  lemma ByteRead(b: Byte, rest: Text)
    ensures ByteAt(PercentByte(b) + rest, 0) == Some(b)
  {
  }

  lemma ByteReadAfter(front: Text, t: Text, i: nat)
    ensures ByteAt(front + t, |front| + i) == ByteAt(t, i)
  {
  }

  lemma BytesRead(bytes: seq<Byte>, rest: Text)
    requires 1 <= |bytes| <= 4
    ensures |PercentBytes(bytes)| == 3 * |bytes|
    ensures forall i :: 0 <= i < |bytes| ==> ByteAt(PercentBytes(bytes) + rest, 3 * i) == Some(bytes[i])
  {
    var tail := PercentBytes(bytes[1..]) + rest;
    assert PercentBytes(bytes) + rest == PercentByte(bytes[0]) + tail;
    ByteRead(bytes[0], tail);
    if |bytes| > 1 {
      BytesRead(bytes[1..], rest);
      forall i | 1 <= i < |bytes| ensures ByteAt(PercentBytes(bytes) + rest, 3 * i) == Some(bytes[i]) {
        ByteReadAfter(PercentByte(bytes[0]), tail, 3 * (i - 1));
        assert bytes[1..][i - 1] == bytes[i];
      }
    }
  }

  lemma PointDecoded(p: CodePoint, rest: Text)
    requires !(0xD800 <= p < 0xE000)
    ensures DecodedPoint(PercentBytes(Utf8(p)) + rest) == Some((p, |Utf8(p)|))
    ensures |PercentBytes(Utf8(p))| == 3 * |Utf8(p)|
  {
    BytesRead(Utf8(p), rest);
    var bytes, t := Utf8(p), PercentBytes(Utf8(p)) + rest;
    hide ByteAt, PercentBytes, DecodedPoint;
    assert ByteAt(t, 3 * 0) == Some(bytes[0]);
    if p < 0x80 {
      OneByte(t, p);
    } else if p < 0x800 {
      assert ByteAt(t, 3 * 1) == Some(bytes[1]);
      TwoBytes(t, p);
    } else if p < 0x10000 {
      assert ByteAt(t, 3 * 1) == Some(bytes[1]) && ByteAt(t, 3 * 2) == Some(bytes[2]);
      ThreeBytes(t, p);
    } else {
      assert ByteAt(t, 3 * 1) == Some(bytes[1]) && ByteAt(t, 3 * 2) == Some(bytes[2]) && ByteAt(t, 3 * 3) == Some(bytes[3]);
      FourBytes(t, p);
    }
  }

  lemma OneByte(t: Text, p: CodePoint)
    requires p < 0x80 && ByteAt(t, 0) == Some(p)
    ensures DecodedPoint(t) == Some((p, 1))
  {
    hide ByteAt;
  }

  lemma TwoBytes(t: Text, p: CodePoint)
    requires 0x80 <= p < 0x800
    requires ByteAt(t, 0) == Some(0xC0 + p / 64) && ByteAt(t, 3) == Some(0x80 + p % 64)
    ensures DecodedPoint(t) == Some((p, 2))
  {
    hide ByteAt;
    assert (p / 64) * 64 + p % 64 == p;
  }

  lemma ThreeBytes(t: Text, p: CodePoint)
    requires 0x800 <= p < 0x10000 && !(0xD800 <= p < 0xE000)
    requires ByteAt(t, 0) == Some(0xE0 + p / 4096) && ByteAt(t, 3) == Some(0x80 + p / 64 % 64)
    requires ByteAt(t, 6) == Some(0x80 + p % 64)
    ensures DecodedPoint(t) == Some((p, 3))
  {
    hide ByteAt;
    var q := p / 64;
    assert q * 64 + p % 64 == p && q / 64 == p / 4096 && q / 64 * 64 + q % 64 == q;
    assert (p / 4096) * 4096 + (p / 64 % 64) * 64 + p % 64 == p;
  }

  lemma FourBytes(t: Text, p: CodePoint)
    requires 0x10000 <= p
    requires ByteAt(t, 0) == Some(0xF0 + p / 262144) && ByteAt(t, 3) == Some(0x80 + p / 4096 % 64)
    requires ByteAt(t, 6) == Some(0x80 + p / 64 % 64) && ByteAt(t, 9) == Some(0x80 + p % 64)
    ensures DecodedPoint(t) == Some((p, 4))
  {
    hide ByteAt;
    var q := p / 64;
    var r := q / 64;
    assert q * 64 + p % 64 == p && r * 64 + q % 64 == q && r / 64 * 64 + r % 64 == r;
    assert r == p / 4096 && r / 64 == p / 262144;
    assert (p / 262144) * 262144 + (p / 4096 % 64) * 4096 + (p / 64 % 64) * 64 + p % 64 == p;
  }

  lemma DecodePoint(p: CodePoint, rest: Text)
    requires !(0xD800 <= p < 0xE000) && Decode(rest).Some?
    ensures Decode(PercentBytes(Utf8(p)) + rest) == Some(Units(p) + Decode(rest).value)
  {
    PointDecoded(p, rest);
    PercentFirst(p, rest);
    hide PercentBytes, Utf8, DecodedPoint;
    var e := PercentBytes(Utf8(p)) + rest;
    assert e[3 * |Utf8(p)|..] == rest;
  }

  lemma DecodeUnit(c: CodeUnit, rest: Text)
    requires c != PERCENT && Decode(rest).Some?
    ensures Decode([c] + rest) == Some([c] + Decode(rest).value)
  {
    assert ([c] + rest)[1..] == rest;
  }

  lemma NothingDecodes()
    ensures Decode([]) == Some([])
  {
  }

  // Decoding undoes encoding, on every text encodeURIComponent accepts.
  lemma {:induction false} DecodeEncode(t: Text)
    requires Encode(t).Some?
    ensures Decode(Encode(t).value) == Some(t)
    decreases |t|
  {
    NothingDecodes();
    hide Decode, PercentBytes, Utf8;
    if t != [] {
      if Unreserved(t[0]) {
        DecodeEncode(t[1..]);
        DecodeUnit(t[0], Encode(t[1..]).value);
        assert t == [t[0]] + t[1..];
      } else {
        var p := FirstPoint(t).value;
        PointUnits(t);
        hide Units, FirstPoint;
        var more := t[|Units(p)|..];
        DecodeEncode(more);
        DecodePoint(p, Encode(more).value);
        assert t == Units(p) + more;
      }
    }
  }

  lemma PercentFirst(p: CodePoint, rest: Text)
    ensures var e := PercentBytes(Utf8(p)) + rest; e != [] && e[0] == PERCENT
  {
    assert PercentBytes(Utf8(p)) == PercentByte(Utf8(p)[0]) + PercentBytes(Utf8(p)[1..]);
  }

  lemma {:induction false} BytesAvoidSeparator(bytes: seq<Byte>)
    ensures COLON !in PercentBytes(bytes)
  {
    if bytes != [] { BytesAvoidSeparator(bytes[1..]); }
  }

  // Percent-encoding never emits the separator.
  lemma {:induction false} EncodeAvoidsSeparator(t: Text)
    requires Encode(t).Some?
    ensures COLON !in Encode(t).value
    ensures t != [] ==> Encode(t).value != []
    decreases |t|
  {
    if t != [] {
      if Unreserved(t[0]) {
        EncodeAvoidsSeparator(t[1..]);
      } else {
        var p := FirstPoint(t).value;
        EncodeAvoidsSeparator(t[|Units(p)|..]);
        BytesAvoidSeparator(Utf8(p));
        PercentFirst(p, Encode(t[|Units(p)|..]).value);
      }
    }
  }

  lemma {:induction false} LastAt(t: Text, c: CodeUnit, i: nat)
    requires i < |t| && t[i] == c && c !in t[i + 1..]
    ensures LastIndexOf(t, c) == i
  {
    if i < |t| - 1 {
      assert t[i + 1..][|t| - 2 - i] == t[|t| - 1];
      assert t[..|t| - 1][i + 1..] == t[i + 1..][..|t| - 2 - i];
      LastAt(t[..|t| - 1], c, i);
    }
  }

  // Storage keys and identities are in bijection: for every key and identity,
  // the key names the identity exactly when it is the identity's key.
  lemma KeysNameIdentities(key: Text, identity: BriefIdentity)
    ensures IdentityFrom(key) == Some(identity) <==> KeyOf(identity) == Some(key)
  {
    if KeyOf(identity) == Some(key) {
      var workspace, product := Encode(identity.workspaceId).value, Encode(identity.productId).value;
      var encoded := key[|PREFIX|..];
      assert key == PREFIX + (workspace + [COLON] + product);
      assert encoded == workspace + [COLON] + product;
      EncodeAvoidsSeparator(identity.workspaceId);
      EncodeAvoidsSeparator(identity.productId);
      assert encoded[..|workspace|] == workspace && encoded[|workspace| + 1..] == product;
      FirstAt(encoded, COLON, |workspace|);
      LastAt(encoded, COLON, |workspace|);
      DecodeEncode(identity.workspaceId);
      DecodeEncode(identity.productId);
    }
  }

  lemma KeysDistinguish(a: BriefIdentity, b: BriefIdentity)
    requires KeyOf(a).Some? && KeyOf(a) == KeyOf(b)
    ensures a == b
  {
    KeysNameIdentities(KeyOf(a).value, a);
    KeysNameIdentities(KeyOf(a).value, b);
  }

  // Which identities have a key: bounded ones without lone surrogates.
  predicate WellFormedText(t: Text)
    decreases |t|
  {
    t == [] || (FirstPoint(t).Some? && WellFormedText(t[|Units(FirstPoint(t).value)|..]))
  }

  lemma {:induction false} EncodableIffWellFormed(t: Text)
    ensures Encode(t).Some? <==> WellFormedText(t)
    decreases |t|
  {
    if t != [] {
      if Unreserved(t[0]) {
        assert FirstPoint(t) == Some(t[0]) && |Units(t[0])| == 1;
        EncodableIffWellFormed(t[1..]);
      } else if FirstPoint(t).Some? {
        EncodableIffWellFormed(t[|Units(FirstPoint(t).value)|..]);
      }
    }
  }

  lemma KeyExistsIff(identity: BriefIdentity)
    ensures KeyOf(identity).Some? <==>
      Bounded(identity) && WellFormedText(identity.workspaceId) && WellFormedText(identity.productId)
  {
    EncodableIffWellFormed(identity.workspaceId);
    EncodableIffWellFormed(identity.productId);
  }
}
