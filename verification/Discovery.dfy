/**
 The signed discovery advertisement: a two-version binary format, its encoder and its decoder.
 */
module Discovery {
  import opened Options
  import opened Varints

  const MAX_PAYLOAD := 316
  const SIGNATURE := 64

  /** Ed25519 over the bytes, with the key first; left abstract. */
  type Verifier = (seq<byte>, seq<byte>, seq<byte>) -> bool

  /** What an advertisement says. Text fields are kept as the bytes they stand for. */
  datatype Advert = Advert(
    version: nat,
    host: seq<byte>,
    port: nat,
    name: string,
    pin: seq<byte>,
    expiry: nat,
    ticketIdentity: Option<seq<byte>>,
    ticketKeyId: Option<seq<byte>>,
    relayIdentity: seq<byte>,
    accessMode: string,
    groups: seq<nat>)

  predicate Ascii(s: string) { forall i :: 0 <= i < |s| ==> s[i] as int < 128 }

  function Label(name: string): (bs: seq<byte>)
    requires Ascii(name)
    ensures |bs| == |name| && forall i :: 0 <= i < |bs| ==> bs[i] == name[i] as int
  {
    seq(|name|, i requires 0 <= i < |name| => name[i] as int)
  }

  /** bytes.decode("ascii"). */
  function FromAscii(bs: seq<byte>): (s: Option<string>)
    ensures s.Some? ==> Ascii(s.value) && Label(s.value) == bs
    ensures s.None? <==> exists i :: 0 <= i < |bs| && bs[i] >= 128
  {
    if forall i :: 0 <= i < |bs| ==> bs[i] < 128
    then
      var s := seq(|bs|, i requires 0 <= i < |bs| => bs[i] as char);
      assert Ascii(s);
      Some(s)
    else None
  }

  function Domain(version: nat): seq<byte>
  {
    Label(if version == 3 then "Qortal-MASQUE-Discovery-v3\0" else "Qortal-MASQUE-Discovery-v2\0")
  }

  // ------------------------------------------------------------------ the layout

  predicate WellShaped(a: Advert)
  {
    && (a.version == 2 || a.version == 3)
    && (|a.host| == 4 || |a.host| == 16)
    && a.port < 0x1_0000 && a.expiry < 0x1_0000_0000 && |a.pin| == 32
    && Ascii(a.name) && 1 <= |a.name| <= 128
    && |a.groups| <= 16 && Ascending(a.groups) && (forall i :: 0 <= i < |a.groups| ==> ValidGroup(a.groups[i]))
    && a.accessMode == (if a.groups != [] then "groups" else "public")
    && |a.relayIdentity| == 32
    && (a.version == 2 ==> a.ticketIdentity.None? && a.ticketKeyId.None?)
    && (a.version == 3 ==>
          && a.ticketIdentity.Some? && |a.ticketIdentity.value| == 64 && a.ticketIdentity.value[32..] == a.relayIdentity
          && a.ticketKeyId.Some? && |a.ticketKeyId.value| == 32)
  }

  function Head(version: nat, hostSize: nat, nameSize: nat, count: nat): (h: seq<byte>)
    requires 1 <= nameSize <= 128 && count <= 16
    ensures |h| == if version == 3 then 3 else 4
  {
    if version == 3 then [3, nameSize - 1 + (if hostSize == 16 then 128 else 0), count]
    else [2, if hostSize == 16 then 6 else 4, nameSize, count]
  }

  function Fields(host: seq<byte>, port: nat, expiry: nat, pin: seq<byte>): (f: seq<byte>)
    ensures |f| == |host| + 6 + |pin|
  {
    host + BigEndian(port, 2) + BigEndian(expiry, 4) + pin
  }

  function Trailer(a: Advert): (t: seq<byte>)
    requires WellShaped(a)
    ensures |t| == if a.version == 3 then 96 else 32
  {
    if a.version == 3 then a.ticketIdentity.value + a.ticketKeyId.value else a.relayIdentity
  }

  /** The signed bytes of an advertisement. */
  function Layout(a: Advert): seq<byte>
    requires WellShaped(a)
  {
    Head(a.version, |a.host|, |a.name|, |a.groups|) + Fields(a.host, a.port, a.expiry, a.pin) + Label(a.name)
    + Packed(a.groups) + Trailer(a)
  }

  // ----------------------------------------------------------------- the decoder

  datatype Header = Header(version: nat, hostSize: nat, nameSize: nat, count: nat, size: nat)

  function ReadHeader(raw: seq<byte>): (h: Option<Header>)
    requires |raw| >= 4
    ensures h.Some? ==>
      && (h.value.version == 2 || h.value.version == 3) && (h.value.hostSize == 4 || h.value.hostSize == 16)
      && 1 <= h.value.nameSize <= 128 && h.value.count <= 16 && h.value.size == (if h.value.version == 3 then 3 else 4)
  {
    if raw[0] == 3 then
      if raw[2] > 16 then None
      else Some(Header(3, if raw[1] >= 128 then 16 else 4, raw[1] % 128 + 1, raw[2], 3))
    else if raw[0] == 2 && (raw[1] == 4 || raw[1] == 6) then
      if !(1 <= raw[2] <= 128) || raw[3] > 16 then None
      else Some(Header(2, if raw[1] == 4 then 4 else 16, raw[2], raw[3], 4))
    else None
  }

  /** A Python slice: bounds past the end are cut off. */
  function Slice(raw: seq<byte>, from: int, to: int): seq<byte>
  {
    var f := if from < 0 then 0 else if from > |raw| then |raw| else from;
    var t := if to < 0 then 0 else if to > |raw| then |raw| else to;
    if f <= t then raw[f..t] else []
  }

  /** The bytes between the group list and the end of the packet. */
  function TailSize(version: nat): nat { if version == 3 then 160 else 96 }

  function SigningKey(raw: seq<byte>, version: nat): seq<byte>
  {
    if version == 3 then Slice(Slice(raw, |raw| - 160, |raw| - 96), 32, |raw|) else Slice(raw, |raw| - 96, |raw| - 64)
  }

  /** decode, with the two readings it takes of the clock. */
  function Decoded(raw: seq<byte>, verify: Verifier, now: int, later: int): Option<Advert>
  {
    if !(108 <= |raw| <= MAX_PAYLOAD) || ReadHeader(raw).None? then None
    else
      var h := ReadHeader(raw).value;
      var key := SigningKey(raw, h.version);
      if |key| != 32 || !verify(key, Domain(h.version) + raw[..|raw| - SIGNATURE], raw[|raw| - SIGNATURE..]) then None
      else Body(raw, h, key, now, later)
  }

  function Body(raw: seq<byte>, h: Header, key: seq<byte>, now: int, later: int): Option<Advert>
    requires |raw| >= 108 && (h.hostSize == 4 || h.hostSize == 16) && h.size <= 4
  {
    var end := |raw| - TailSize(h.version);
    var at := h.size + h.hostSize;
    var port := FromBigEndian(raw[at..at + 2]);
    var expiry := FromBigEndian(raw[at + 2..at + 6]);
    var name := FromAscii(Slice(raw, at + 38, at + 38 + h.nameSize));
    var groups := if end < 0 then None else ReadGroups(raw, at + 38 + h.nameSize, end, h.count);
    if name.None? || groups.None? || groups.value.next != end || !Ascending(groups.value.values) then None
    else if expiry <= now || expiry > later + 3600 then None
    else Some(Advert(h.version, raw[h.size..at], port, name.value, raw[at + 6..at + 38], expiry,
                     if h.version == 3 then Some(Slice(raw, |raw| - 160, |raw| - 96)) else None,
                     if h.version == 3 then Some(Slice(raw, |raw| - 96, |raw| - 64)) else None,
                     key, if groups.value.values != [] then "groups" else "public", groups.value.values))
  }

  // ------------------------------------------------- accepted bytes are canonical

  lemma HeadOfHeader(raw: seq<byte>)
    requires |raw| >= 4 && ReadHeader(raw).Some?
    ensures
      var h := ReadHeader(raw).value;
      raw[..h.size] == Head(h.version, h.hostSize, h.nameSize, h.count)
  {
  }

  lemma FieldsOfBody(raw: seq<byte>, size: nat, at: nat)
    requires size <= at && at + 38 <= |raw|
    ensures raw[size..at + 38] ==
            Fields(raw[size..at], FromBigEndian(raw[at..at + 2]), FromBigEndian(raw[at + 2..at + 6]), raw[at + 6..at + 38])
    ensures FromBigEndian(raw[at..at + 2]) < 0x1_0000 && FromBigEndian(raw[at + 2..at + 6]) < 0x1_0000_0000
  {
    WriteBack(raw[at..at + 2]);
    WriteBack(raw[at + 2..at + 6]);
    assert Power256(2) == 0x1_0000 && Power256(4) == 0x1_0000_0000;
    assert raw[size..at + 38] == raw[size..at] + raw[at..at + 2] + raw[at + 2..at + 6] + raw[at + 6..at + 38];
  }

  /** Within bounds a slice is a part. */
  lemma SliceIsPart(raw: seq<byte>, from: nat, to: nat)
    requires from <= to <= |raw|
    ensures Slice(raw, from, to) == raw[from..to]
  {
  }

  /** What lies between the group list and the signature, and which key it holds. */
  lemma TailOfBody(raw: seq<byte>, version: nat)
    requires TailSize(version) <= |raw| && (version == 2 || version == 3)
    ensures
      var tail := raw[|raw| - TailSize(version)..|raw| - SIGNATURE];
      var identity := Slice(raw, |raw| - 160, |raw| - 96);
      var keyId := Slice(raw, |raw| - 96, |raw| - 64);
      && (version == 2 ==> tail == SigningKey(raw, version))
      && (version == 3 ==> tail == identity + keyId && |identity| == 64 && |keyId| == 32 && identity[32..] == SigningKey(raw, version))
  {
    if version == 3 {
      assert raw[|raw| - 160..|raw| - 64] == raw[|raw| - 160..|raw| - 96] + raw[|raw| - 96..|raw| - 64];
    }
  }

  /** The pieces of a packet that was accepted, in order. */
  lemma PiecesOfBody(raw: seq<byte>, h: Header, key: seq<byte>, now: int, later: int)
    requires 108 <= |raw| && ReadHeader(raw) == Some(h) && key == SigningKey(raw, h.version) && |key| == 32
    requires Body(raw, h, key, now, later).Some?
    ensures
      var a := Body(raw, h, key, now, later).value;
      var at := h.size + h.hostSize + 38;
      var end := |raw| - TailSize(h.version);
      && at + h.nameSize <= end && WellShaped(a) && now < a.expiry <= later + 3600 && a.relayIdentity == key
      && |a.host| == h.hostSize && |a.name| == h.nameSize && |a.groups| == h.count && a.version == h.version
      && raw[h.size..at] == Fields(a.host, a.port, a.expiry, a.pin)
      && raw[at..at + h.nameSize] == Label(a.name)
      && raw[at + h.nameSize..end] == Packed(a.groups)
      && raw[end..|raw| - SIGNATURE] == Trailer(a)
  {
    hide Fields, Packed, ReadHeader, FromAscii, FromBigEndian, ReadGroups, Label, Slice, SigningKey;
    var at := h.size + h.hostSize + 38;
    var end := |raw| - TailSize(h.version);
    FieldsOfBody(raw, h.size, h.size + h.hostSize);
    PackedOfRead(raw, at + h.nameSize, end, h.count);
    SliceIsPart(raw, at, at + h.nameSize);
    TailOfBody(raw, h.version);
  }

  /** Whatever the decoder accepts is, up to the signature, the layout of what it returns. */
  lemma AcceptedIsLayout(raw: seq<byte>, verify: Verifier, now: int, later: int)
    requires Decoded(raw, verify, now, later).Some?
    ensures
      var a := Decoded(raw, verify, now, later).value;
      && |raw| >= SIGNATURE && WellShaped(a) && Layout(a) == raw[..|raw| - SIGNATURE]
      && now < a.expiry <= later + 3600
      && verify(a.relayIdentity, Domain(a.version) + Layout(a), raw[|raw| - SIGNATURE..])
  {
    hide Domain, WellShaped, Fields, Packed, Label, Trailer, Head, SigningKey, ReadHeader, Body;
    var h := ReadHeader(raw).value;
    var key := SigningKey(raw, h.version);
    HeadOfHeader(raw);
    PiecesOfBody(raw, h, key, now, later);
    var at := h.size + h.hostSize + 38;
    var end := |raw| - TailSize(h.version);
    FiveParts(raw, h.size, at, at + h.nameSize, end, |raw| - SIGNATURE);
  }

  lemma FiveParts(raw: seq<byte>, i: nat, j: nat, k: nat, l: nat, m: nat)
    requires i <= j <= k <= l <= m <= |raw|
    ensures raw[..m] == raw[..i] + raw[i..j] + raw[j..k] + raw[k..l] + raw[l..m]
  {
  }

  ghost predicate Spells(bs: seq<byte>, text: string) { |bs| == |text| && forall i :: 0 <= i < |bs| ==> bs[i] == text[i] as int }

  ghost predicate SignedUnder(raw: seq<byte>, verify: Verifier, key: seq<byte>, domain: seq<byte>, text: string)
    requires |raw| >= 64
  {
    Spells(domain, text) && verify(key, domain + raw[..|raw| - 64], raw[|raw| - 64..])
  }

  /** The two domains, letter by letter. */
  lemma DomainsSpelled()
    ensures Spells(Domain(2), "Qortal-MASQUE-Discovery-v2\0") && Spells(Domain(3), "Qortal-MASQUE-Discovery-v3\0")
  {
  }

  /** What an accepted packet is signed over: its own version's domain, then all of it but the signature. */
  lemma SignedUnderItsVersion(raw: seq<byte>, verify: Verifier, now: int, later: int)
    requires Decoded(raw, verify, now, later).Some?
    ensures
      var a := Decoded(raw, verify, now, later).value;
      && |raw| >= 64
      && (a.version == 2 || a.version == 3)
      && (a.version == 2 ==> SignedUnder(raw, verify, a.relayIdentity, Domain(2), "Qortal-MASQUE-Discovery-v2\0"))
      && (a.version == 3 ==> SignedUnder(raw, verify, a.relayIdentity, Domain(3), "Qortal-MASQUE-Discovery-v3\0"))
  {
    hide Decoded, Layout, Label, Spells, Domain;
    AcceptedIsLayout(raw, verify, now, later);
    DomainsSpelled();
  }

  /** Nothing signed for one version can be taken for something signed for the other. */
  lemma VersionsSignApart(x: seq<byte>, y: seq<byte>)
    ensures Domain(2) + x != Domain(3) + y
  {
    assert "Qortal-MASQUE-Discovery-v2\0"[25] != "Qortal-MASQUE-Discovery-v3\0"[25];
    assert (Domain(2) + x)[25] == Domain(2)[25] != Domain(3)[25] == (Domain(3) + y)[25];
  }

  /** Two packets that decode to the same record carry the same signed bytes. */
  lemma Canonical(raw: seq<byte>, raw': seq<byte>, verify: Verifier, now: int, later: int, now': int, later': int)
    requires Decoded(raw, verify, now, later).Some? && Decoded(raw, verify, now, later) == Decoded(raw', verify, now', later')
    ensures |raw| == |raw'| && raw[..|raw| - SIGNATURE] == raw'[..|raw'| - SIGNATURE]
  {
    hide Decoded;
    AcceptedIsLayout(raw, verify, now, later);
    AcceptedIsLayout(raw', verify, now', later');
    assert |raw[..|raw| - SIGNATURE]| == |raw'[..|raw'| - SIGNATURE]|;
  }

  // ------------------------------------------------------- layouts are accepted

  lemma HeaderOfHead(raw: seq<byte>, version: nat, hostSize: nat, nameSize: nat, count: nat)
    requires version == 2 || version == 3
    requires (hostSize == 4 || hostSize == 16) && 1 <= nameSize <= 128 && count <= 16
    requires |raw| >= 4 && Head(version, hostSize, nameSize, count) <= raw
    ensures ReadHeader(raw) == Some(Header(version, hostSize, nameSize, count, if version == 3 then 3 else 4))
  {
    var h := Head(version, hostSize, nameSize, count);
    assert forall i :: 0 <= i < |h| ==> raw[i] == h[i];
  }

  lemma FieldsReadBack(f: seq<byte>, host: seq<byte>, port: nat, expiry: nat, pin: seq<byte>)
    requires f == Fields(host, port, expiry, pin) && |pin| == 32 && port < 0x1_0000 && expiry < 0x1_0000_0000
    ensures
      var n := |host|;
      && |f| == n + 38 && f[..n] == host && FromBigEndian(f[n..n + 2]) == port && FromBigEndian(f[n + 2..n + 6]) == expiry
      && f[n + 6..n + 38] == pin
  {
    var n := |host|;
    assert f[n..n + 2] == BigEndian(port, 2);
    assert f[n + 2..n + 6] == BigEndian(expiry, 4);
    assert Power256(2) == 0x1_0000 && Power256(4) == 0x1_0000_0000;
    ReadBack(port, 2);
    ReadBack(expiry, 4);
  }

  lemma AsciiReadBack(name: string)
    requires Ascii(name)
    ensures FromAscii(Label(name)) == Some(name)
  {
    var r := FromAscii(Label(name));
    assert forall i :: 0 <= i < |name| ==> Label(r.value)[i] == Label(name)[i];
    assert r.value == name;
  }

  lemma PartsOfSum(raw: seq<byte>, a: seq<byte>, b: seq<byte>, c: seq<byte>, d: seq<byte>, e: seq<byte>, f: seq<byte>)
    requires raw == a + b + c + d + e + f
    ensures
      var i := |a|; var j := i + |b|; var k := j + |c|; var l := k + |d|; var m := l + |e|;
      && |raw| == m + |f| && raw[..i] == a && raw[i..j] == b && raw[j..k] == c && raw[k..l] == d && raw[l..m] == e && raw[m..] == f
      && raw[..m] == a + b + c + d + e
  {
  }

  /** Every well-shaped record, laid out, signed and within the budget, is accepted and decodes to
      itself while it has not expired and is not too far ahead. */
  lemma LayoutIsAccepted(a: Advert, signature: seq<byte>, verify: Verifier, now: int, later: int)
    requires WellShaped(a) && |signature| == SIGNATURE && |Layout(a)| + SIGNATURE <= MAX_PAYLOAD
    requires verify(a.relayIdentity, Domain(a.version) + Layout(a), signature)
    requires now < a.expiry <= later + 3600
    ensures Decoded(Layout(a) + signature, verify, now, later) == Some(a)
  {
    hide Domain, Packed, ReadGroups, FromAscii, ReadHeader, Head, Fields;
    var raw := Layout(a) + signature;
    var head, fields := Head(a.version, |a.host|, |a.name|, |a.groups|), Fields(a.host, a.port, a.expiry, a.pin);
    PartsOfSum(raw, head, fields, Label(a.name), Packed(a.groups), Trailer(a), signature);
    HeaderOfHead(raw, a.version, |a.host|, |a.name|, |a.groups|);
    BodyOfLayout(a, raw, signature, now, later);
    assert SigningKey(raw, a.version) == a.relayIdentity by { KeyOfLayout(a, raw, signature); }
  }

  lemma TailOfLayout(a: Advert, raw: seq<byte>, signature: seq<byte>)
    requires WellShaped(a) && |signature| == SIGNATURE && raw == Layout(a) + signature
    ensures TailSize(a.version) <= |raw| && raw[|raw| - TailSize(a.version)..|raw| - SIGNATURE] == Trailer(a)
  {
    hide Packed, Head, Fields, Label;
    var head, fields := Head(a.version, |a.host|, |a.name|, |a.groups|), Fields(a.host, a.port, a.expiry, a.pin);
    PartsOfSum(raw, head, fields, Label(a.name), Packed(a.groups), Trailer(a), signature);
  }

  /** Slicing off the tail of a packet by its own offsets. */
  lemma SlicesOfTail(raw: seq<byte>, version: nat)
    requires (version == 2 || version == 3) && TailSize(version) <= |raw|
    ensures version == 2 ==> SigningKey(raw, version) == raw[|raw| - 96..|raw| - 64]
    ensures version == 3 ==> Slice(raw, |raw| - 160, |raw| - 96) == raw[|raw| - 160..|raw| - 96]
    ensures version == 3 ==> Slice(raw, |raw| - 96, |raw| - 64) == raw[|raw| - 96..|raw| - 64]
    ensures version == 3 ==> SigningKey(raw, version) == raw[|raw| - 160..|raw| - 96][32..]
  {
  }

  lemma KeyOfLayout(a: Advert, raw: seq<byte>, signature: seq<byte>)
    requires WellShaped(a) && |signature| == SIGNATURE && raw == Layout(a) + signature
    ensures SigningKey(raw, a.version) == a.relayIdentity
    ensures a.version == 3 ==> Slice(raw, |raw| - 160, |raw| - 96) == a.ticketIdentity.value
    ensures a.version == 3 ==> Slice(raw, |raw| - 96, |raw| - 64) == a.ticketKeyId.value
  {
    hide Layout, Slice, SigningKey, Ascii, Ascending;
    TailOfLayout(a, raw, signature);
    SlicesOfTail(raw, a.version);
    if a.version == 3 {
      SubSlice(raw, |raw| - 160, Trailer(a), 0, 64);
      SubSlice(raw, |raw| - 160, Trailer(a), 64, 96);
      assert Trailer(a)[..64] == a.ticketIdentity.value && Trailer(a)[64..96] == a.ticketKeyId.value;
    }
  }

  lemma SubSlice(raw: seq<byte>, at: nat, f: seq<byte>, i: nat, j: nat)
    requires at + |f| <= |raw| && raw[at..at + |f|] == f && i <= j <= |f|
    ensures raw[at + i..at + j] == f[i..j]
  {
    forall k | 0 <= k < j - i
      ensures raw[at + i..at + j][k] == f[i..j][k]
    {
      assert raw[at..at + |f|][i + k] == f[i + k];
    }
  }

  lemma BodyOfLayout(a: Advert, raw: seq<byte>, signature: seq<byte>, now: int, later: int)
    requires WellShaped(a) && |signature| == SIGNATURE && raw == Layout(a) + signature && |raw| >= 108
    requires now < a.expiry <= later + 3600
    ensures Body(raw, Header(a.version, |a.host|, |a.name|, |a.groups|, if a.version == 3 then 3 else 4), a.relayIdentity, now, later) == Some(a)
  {
    hide Packed, ReadGroups, FromAscii, Head, Fields, Label, Trailer, FromBigEndian, Slice, SigningKey;
    var head, fields := Head(a.version, |a.host|, |a.name|, |a.groups|), Fields(a.host, a.port, a.expiry, a.pin);
    PartsOfSum(raw, head, fields, Label(a.name), Packed(a.groups), Trailer(a), signature);
    KeyOfLayout(a, raw, signature);
    FieldsReadBack(fields, a.host, a.port, a.expiry, a.pin);
    AsciiReadBack(a.name);
    var size, n := |head|, |a.host|;
    var at := size + n;
    SubSlice(raw, size, fields, 0, n);
    SubSlice(raw, size, fields, n, n + 2);
    SubSlice(raw, size, fields, n + 2, n + 6);
    SubSlice(raw, size, fields, n + 6, n + 38);
    var end := |raw| - TailSize(a.version);
    assert raw[at + 38 + |a.name|..end] == Packed(a.groups);
    ReadOfPacked(raw, at + 38 + |a.name|, end, a.groups);
    SliceIsPart(raw, at + 38, at + 38 + |a.name|);
  }
}
