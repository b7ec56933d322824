/**
 The encoder of discovery advertisements, the loops of both codecs, and the size check the relay makes
 at start-up on its own account.
 */
module Announcement {
  import opened Options
  import opened Varints
  import opened Discovery

  // ------------------------------------------------------------------ the encoder

  /** The arguments of encode; an address or a hexadecimal text is given as the bytes it stands for. */
  datatype Offer = Offer(host: seq<byte>, port: int, name: string, pin: seq<byte>, expiry: int,
                         mode: string, groups: seq<int>, ticketKey: Option<seq<byte>>)

  /** Why encode raises, in the order it finds out. */
  datatype Reason = BadAddress | BadPolicy | BadGroups | NotAscii | BadName | BadEndpoint | BadExpiry | BadTicketKey | TooLong

  datatype Result = Packet(bytes: seq<byte>) | Refused(reason: Reason)

  /** The relay's Reticulum identity: a 64-byte public key, signing half last, and a signer. */
  datatype Identity = Identity(publicKey: seq<byte>, sign: seq<byte> -> seq<byte>)

  ghost predicate GoodIdentity(id: Identity)
  {
    |id.publicKey| == 64 && forall m :: |id.sign(m)| == SIGNATURE
  }

  const NAME_CHARS := "abcdefghijklmnopqrstuvwxyzABCDEFGHIJKLMNOPQRSTUVWXYZ0123456789.-"

  predicate GoodName(name: string)
  {
    Ascii(name) && 1 <= |name| <= 128 && forall i :: 0 <= i < |name| ==> name[i] in NAME_CHARS
  }

  predicate NoRepeats(gs: seq<int>) { forall i, j :: 0 <= i < j < |gs| ==> gs[i] != gs[j] }

  predicate Accepts(o: Offer)
  {
    && (|o.host| == 4 || |o.host| == 16)
    && (o.mode == "public" || o.mode == "groups") && |o.groups| <= 16 && NoRepeats(o.groups)
    && (o.mode == "groups" <==> o.groups != []) && (forall i :: 0 <= i < |o.groups| ==> ValidGroup(o.groups[i]))
    && GoodName(o.name)
    && 0 < o.port <= 65535 && |o.pin| == 32
    && 0 <= o.expiry < 0x1_0000_0000
    && (o.ticketKey.Some? ==> |o.ticketKey.value| == 32)
  }

  /** The first thing wrong with an offer. */
  function Refusal(o: Offer): Option<Reason>
  {
    if |o.host| != 4 && |o.host| != 16 then Some(BadAddress)
    else if (o.mode != "public" && o.mode != "groups") || |o.groups| > 16 || !NoRepeats(o.groups) then Some(BadPolicy)
    else if (o.mode == "groups") != (o.groups != []) || exists i :: 0 <= i < |o.groups| && !ValidGroup(o.groups[i]) then Some(BadGroups)
    else if !Ascii(o.name) then Some(NotAscii)
    else if !GoodName(o.name) then Some(BadName)
    else if !(0 < o.port <= 65535) || |o.pin| != 32 then Some(BadEndpoint)
    else if !(0 <= o.expiry < 0x1_0000_0000) then Some(BadExpiry)
    else if o.ticketKey.Some? && |o.ticketKey.value| != 32 then Some(BadTicketKey)
    else None
  }

  /** An offer is acceptable exactly when nothing is wrong with it. */
  lemma AcceptedIffNotRefused(o: Offer)
    ensures Accepts(o) <==> Refusal(o).None?
  {
    hide GoodName, NoRepeats, ValidGroup, Ascii;
    if GoodName(o.name) { GoodIsAscii(o.name); }
  }

  lemma GoodIsAscii(name: string)
    requires GoodName(name)
    ensures Ascii(name)
  {
  }

  predicate Rising(gs: seq<int>) { forall i, j :: 0 <= i < j < |gs| ==> gs[i] <= gs[j] }

  lemma RisingCons(x: int, gs: seq<int>)
    requires Rising(gs) && (gs != [] ==> x <= gs[0])
    ensures Rising([x] + gs)
  {
    var r := [x] + gs;
    forall i, j | 0 <= i < j < |r|
      ensures r[i] <= r[j]
    {
      assert r[j] == gs[j - 1] && (i > 0 ==> r[i] == gs[i - 1]);
    }
  }

  function Insert(g: int, gs: seq<int>): (r: seq<int>)
    requires Rising(gs)
    ensures Rising(r) && multiset(r) == multiset(gs) + multiset{g}
    ensures r != [] && r[0] == if gs == [] || g <= gs[0] then g else gs[0]
  {
    if gs == [] || g <= gs[0] then
      RisingCons(g, gs);
      [g] + gs
    else
      var rest := gs[1..];
      assert gs == [gs[0]] + rest;
      assert Rising(rest);
      var r := Insert(g, rest);
      RisingCons(gs[0], r);
      [gs[0]] + r
  }

  /** Python's sorted. */
  function Sorted(gs: seq<int>): (r: seq<int>)
    ensures Rising(r) && multiset(r) == multiset(gs)
  {
    if gs == [] then []
    else
      assert gs == gs[..|gs| - 1] + [gs[|gs| - 1]];
      Insert(gs[|gs| - 1], Sorted(gs[..|gs| - 1]))
  }

  lemma SortedAscends(gs: seq<int>)
    requires NoRepeats(gs) && forall i :: 0 <= i < |gs| ==> ValidGroup(gs[i])
    ensures |Sorted(gs)| == |gs| && forall i :: 0 <= i < |Sorted(gs)| ==> ValidGroup(Sorted(gs)[i])
    ensures forall i, j :: 0 <= i < j < |Sorted(gs)| ==> Sorted(gs)[i] < Sorted(gs)[j]
  {
    var r := Sorted(gs);
    assert |r| == |multiset(r)| == |multiset(gs)| == |gs|;
    forall i | 0 <= i < |r|
      ensures ValidGroup(r[i])
    {
      assert r[i] in multiset(r);
      assert r[i] in gs;
    }
    forall i, j | 0 <= i < j < |r|
      ensures r[i] != r[j]
    {
      if r[i] == r[j] {
        CountTwice(r, i, j);
        CountOnce(gs, r[i]);
      }
    }
  }

  lemma CountTwice(r: seq<int>, i: nat, j: nat)
    requires i < j < |r| && r[i] == r[j]
    ensures multiset(r)[r[i]] >= 2
  {
    assert r == r[..i] + [r[i]] + r[i + 1..j] + [r[j]] + r[j + 1..];
    assert multiset(r) == multiset(r[..i]) + multiset{r[i]} + multiset(r[i + 1..j]) + multiset{r[j]} + multiset(r[j + 1..]);
  }

  lemma {:induction false} CountOnce(gs: seq<int>, x: int)
    requires NoRepeats(gs)
    ensures multiset(gs)[x] <= 1
  {
    if gs != [] {
      var front, last := gs[..|gs| - 1], gs[|gs| - 1];
      assert gs == front + [last];
      CountOnce(front, x);
      assert last !in front;
    }
  }

  /** What an accepted offer advertises: its own fields, the groups sorted. */
  function AdvertOf(publicKey: seq<byte>, o: Offer): (a: Advert)
    requires |publicKey| == 64 && Accepts(o)
    ensures WellShaped(a)
    ensures a.host == o.host && a.port == o.port && a.name == o.name && a.pin == o.pin && a.expiry == o.expiry
    ensures a.accessMode == o.mode && a.groups == Sorted(o.groups) && a.relayIdentity == publicKey[32..]
    ensures a.version == (if o.ticketKey.Some? then 3 else 2) && a.ticketKeyId == o.ticketKey
    ensures a.ticketIdentity == if o.ticketKey.Some? then Some(publicKey) else None
  {
    SortedAscends(o.groups);
    var gs: seq<nat> := Sorted(o.groups);
    assert gs != [] <==> o.groups != [];
    Advert(if o.ticketKey.Some? then 3 else 2, o.host, o.port, o.name, o.pin, o.expiry,
           if o.ticketKey.Some? then Some(publicKey) else None, o.ticketKey, publicKey[32..], o.mode, gs)
  }

  function Encoded(id: Identity, o: Offer): Result
    requires |id.publicKey| == 64
  {
    AcceptedIffNotRefused(o);
    if Refusal(o).Some? then Refused(Refusal(o).value)
    else
      var a := AdvertOf(id.publicKey, o);
      var packet := Layout(a) + id.sign(Domain(a.version) + Layout(a));
      if |packet| > MAX_PAYLOAD then Refused(TooLong) else Packet(packet)
  }

  // -------------------------------------------------------------- the round trip

  /** Whatever the encoder sends, the decoder gives back: the fields of the offer with the groups
      sorted, in both versions and for both address families, as long as the lease is current. */
  lemma RoundTrip(id: Identity, o: Offer, verify: Verifier, now: int, later: int)
    requires GoodIdentity(id) && Encoded(id, o).Packet?
    requires forall m :: verify(id.publicKey[32..], m, id.sign(m))
    requires now < o.expiry <= later + 3600
    ensures Accepts(o) && Decoded(Encoded(id, o).bytes, verify, now, later) == Some(AdvertOf(id.publicKey, o))
  {
    hide Layout, Decoded, Domain, WellShaped;
    var a := AdvertOf(id.publicKey, o);
    LayoutIsAccepted(a, id.sign(Domain(a.version) + Layout(a)), verify, now, later);
  }

  // ------------------------------------------------------------ the encoder's loops

  /** The nested loops that pack the group list. */
  method PackGroups(gs: seq<nat>) returns (packed: seq<byte>)
    ensures packed == Packed(gs)
  {
    packed := [];
    var i := 0;
    while i < |gs|
      invariant 0 <= i <= |gs| && packed == Packed(gs[..i])
    {
      var group := gs[i];
      ghost var before := packed;
      while group >= 128
        invariant packed + Varint(group) == before + Varint(gs[i])
      {
        packed := packed + [group % 128 + 128];
        group := group / 128;
      }
      packed := packed + [group];
      assert gs[..i + 1][..|gs[..i + 1]| - 1] == gs[..i];
      i := i + 1;
    }
    assert gs[..|gs|] == gs;
  }

  lemma Regroup(head: seq<byte>, host: seq<byte>, port: seq<byte>, expiry: seq<byte>, pin: seq<byte>, rest: seq<byte>)
    ensures head + host + (port + expiry) + pin + rest == head + (host + port + expiry + pin) + rest
  {
  }

  /** Python's set. */
  function Distinct(gs: seq<int>): set<int> { set i | 0 <= i < |gs| :: gs[i] }

  lemma DistinctLast(front: seq<int>, last: int)
    ensures Distinct(front + [last]) == Distinct(front) + {last}
  {
    var gs := front + [last];
    forall x: int
      ensures x in Distinct(gs) <==> x in Distinct(front) + {last}
    {
      if x in Distinct(front) {
        var i :| 0 <= i < |front| && front[i] == x;
        assert gs[i] == x;
      }
      if x == last { assert gs[|front|] == x; }
    }
  }

  /** As many distinct groups as groups: that is how the encoder finds repeats. */
  lemma {:induction false} DistinctSize(gs: seq<int>)
    ensures |Distinct(gs)| <= |gs| && (|Distinct(gs)| == |gs| <==> NoRepeats(gs))
  {
    if gs == [] {
      assert Distinct(gs) == {};
    } else {
      var front, last := gs[..|gs| - 1], gs[|gs| - 1];
      assert gs == front + [last];
      DistinctSize(front);
      DistinctLast(front, last);
      if last in Distinct(front) {
        var i :| 0 <= i < |front| && front[i] == last;
        assert gs[i] == gs[|gs| - 1];
      }
    }
  }

  /** The checks of encode, in its order. */
  method Check(o: Offer) returns (r: Option<Reason>)
    ensures r == Refusal(o)
  {
    if |o.host| != 4 && |o.host| != 16 { return Some(BadAddress); }
    DistinctSize(o.groups);
    if (o.mode != "public" && o.mode != "groups") || |o.groups| > 16 || |Distinct(o.groups)| != |o.groups| { return Some(BadPolicy); }
    if (o.mode == "groups") != (o.groups != []) { return Some(BadGroups); }
    var i := 0;
    while i < |o.groups|
      invariant 0 <= i <= |o.groups| && forall j :: 0 <= j < i ==> ValidGroup(o.groups[j])
    {
      if !(0 < o.groups[i] < 0x8000_0000) { return Some(BadGroups); }
      i := i + 1;
    }
    if !Ascii(o.name) { return Some(NotAscii); }
    var named := CheckName(o.name);
    if !named { return Some(BadName); }
    if !(0 < o.port <= 65535) || |o.pin| != 32 { return Some(BadEndpoint); }
    if !(0 <= o.expiry < 0x1_0000_0000) { return Some(BadExpiry); }
    if o.ticketKey.Some? && |o.ticketKey.value| != 32 { return Some(BadTicketKey); }
    return None;
  }

  method CheckName(name: string) returns (ok: bool)
    ensures ok <==> GoodName(name)
  {
    var i := 0;
    while i < |name|
      invariant 0 <= i <= |name| && forall j :: 0 <= j < i ==> name[j] as int < 128 && name[j] in NAME_CHARS
    {
      if name[i] as int >= 128 || name[i] !in NAME_CHARS { return false; }
      i := i + 1;
    }
    return 1 <= |name| <= 128;
  }

  /** encode. */
  method Encode(id: Identity, o: Offer) returns (r: Result)
    requires |id.publicKey| == 64
    ensures r == Encoded(id, o)
  {
    hide Packed, Label, BigEndian, Domain, WellShaped, Sorted, NoRepeats, ValidGroup;
    var refusal := Check(o);
    if refusal.Some? { return Refused(refusal.value); }
    AcceptedIffNotRefused(o);
    ghost var a := AdvertOf(id.publicKey, o);
    var header, groups := Prepare(id, o);
    var name := Label(o.name);
    var packed := PackGroups(groups);
    var version := if o.ticketKey.Some? then 3 else 2;
    var data := header + o.host;
    data := data + (BigEndian(o.port, 2) + BigEndian(o.expiry, 4)) + o.pin;
    Regroup(header, o.host, BigEndian(o.port, 2), BigEndian(o.expiry, 4), o.pin, []);
    assert data == header + Fields(a.host, a.port, a.expiry, a.pin);
    data := data + name + packed;
    if version == 3 {
      data := data + (id.publicKey + o.ticketKey.value);
    } else {
      data := data + id.publicKey[32..];
    }
    assert data == Layout(a);
    var result := data + id.sign(Domain(version) + data);
    r := if |result| > MAX_PAYLOAD then Refused(TooLong) else Packet(result);
  }

  /** The sorted groups and the header bytes of an offer that has passed the checks. */
  method Prepare(id: Identity, o: Offer) returns (header: seq<byte>, groups: seq<nat>)
    requires |id.publicKey| == 64 && Accepts(o)
    ensures
      var a := AdvertOf(id.publicKey, o);
      groups == a.groups && header == Head(a.version, |a.host|, |a.name|, |a.groups|)
  {
    hide AdvertOf, WellShaped, Sorted, Rising, NoRepeats;
    SortedAscends(o.groups);
    groups := Sorted(o.groups);
    var six := |o.host| == 16;
    header := if o.ticketKey.Some?
      then [3, |o.name| - 1 + (if six then 128 else 0), |groups|]
      else [2, if six then 6 else 4, |o.name|, |groups|];
  }

  // ------------------------------------------------------------ the decoder's loops

  /** v shifted left by 7k bits. */
  function Shifted(k: nat, v: nat): nat { Power128(k) * v }

  lemma ShiftedSplit(k: nat, low: nat, high: nat)
    ensures Shifted(k, low + 128 * high) == Shifted(k, low) + Shifted(k + 1, high)
  {
    assert Power128(k) * (128 * high) == (128 * Power128(k)) * high;
  }

  /** The value so far joined with what is still to be read. */
  function Joined(value: nat, k: nat, rest: Option<Read>): Option<Read>
  {
    if rest.None? then None else Some(Read(value + Shifted(k, rest.value.value), rest.value.next))
  }

  /** What reading one more byte does to the value so far. */
  lemma JoinedStep(raw: seq<byte>, offset: nat, end: nat, k: nat, value: nat)
    requires end <= |raw| && offset < end && k < MAX_BYTES
    ensures
      var b := raw[offset];
      var joined := Joined(value, k, ReadVarint(raw, offset, end, k));
      if b >= 128 then joined == Joined(value + Shifted(k, b % 128), k + 1, ReadVarint(raw, offset + 1, end, k + 1))
      else if k > 0 && b == 0 then joined.None?
      else joined == Some(Read(value + Shifted(k, b), offset + 1))
  {
    hide Shifted;
    var b, rest := raw[offset], ReadVarint(raw, offset + 1, end, k + 1);
    if b >= 128 && rest.Some? { ShiftedSplit(k, b - 128, rest.value.value); }
  }

  lemma NothingLeft(raw: seq<byte>, offset: nat, end: nat, k: nat)
    requires end <= |raw| && (offset >= end || k >= MAX_BYTES)
    ensures ReadVarint(raw, offset, end, k).None?
  {
  }

  /** The inner loop: one group ID, at most five bytes. */
  method TakeVarint(raw: seq<byte>, at: nat, end: nat) returns (r: Option<Read>)
    requires end <= |raw|
    ensures r == ReadVarint(raw, at, end, 0)
  {
    hide ReadVarint, Shifted;
    var value: nat, offset, k := 0, at, 0;
    ShiftedByNothing(ReadVarint(raw, at, end, 0));
    while k < MAX_BYTES
      invariant 0 <= k <= MAX_BYTES && at <= offset
      invariant ReadVarint(raw, at, end, 0) == Joined(value, k, ReadVarint(raw, offset, end, k))
    {
      if offset >= end {
        NothingLeft(raw, offset, end, k);
        return None;
      }
      JoinedStep(raw, offset, end, k, value);
      var b := raw[offset];
      offset := offset + 1;
      value := value + Shifted(k, b % 128);
      if b < 128 {
        if k > 0 && b == 0 { return None; }
        return Some(Read(value, offset));
      }
      k := k + 1;
    }
    NothingLeft(raw, offset, end, k);
    return None;
  }

  lemma ShiftedByNothing(rest: Option<Read>)
    ensures Joined(0, 0, rest) == rest
  {
  }

  /** The outer loop of decode. */
  method TakeGroups(raw: seq<byte>, at: nat, end: nat, count: nat) returns (r: Option<ReadList>)
    requires end <= |raw|
    ensures r == ReadGroups(raw, at, end, count)
  {
    hide ReadVarint;
    var groups: seq<nat>, offset, i := [], at, 0;
    while i < count
      invariant 0 <= i <= count && ReadGroups(raw, at, end, i) == Some(ReadList(groups, offset))
    {
      var g := TakeVarint(raw, offset, end);
      if g.None? || !ValidGroup(g.value.value) {
        ReadGroupsStops(raw, at, end, i + 1, count);
        return None;
      }
      groups, offset := groups + [g.value.value], g.value.next;
      i := i + 1;
    }
    return Some(ReadList(groups, offset));
  }

  lemma {:induction false} ReadGroupsStops(raw: seq<byte>, at: nat, end: nat, i: nat, count: nat)
    requires end <= |raw| && i <= count && ReadGroups(raw, at, end, i).None?
    ensures ReadGroups(raw, at, end, count).None?
  {
    if i < count {
      ReadGroupsStops(raw, at, end, i, count - 1);
    }
  }

  /** decode. */
  method Decode(raw: seq<byte>, verify: Verifier, now: int, later: int) returns (r: Option<Advert>)
    ensures r == Decoded(raw, verify, now, later)
  {
    hide Domain, FromAscii, ReadGroups, FromBigEndian, SigningKey, Slice, Ascending, ReadHeader;
    if !(108 <= |raw| <= MAX_PAYLOAD) { return None; }
    var header := ReadHeader(raw);
    if header.None? { return None; }
    var h := header.value;
    var tail := if h.version == 3 then 160 else 96;
    var key := SigningKey(raw, h.version);
    if |key| != 32 || !verify(key, Domain(h.version) + raw[..|raw| - SIGNATURE], raw[|raw| - SIGNATURE..]) { return None; }
    var offset := h.size;
    var host := raw[offset..offset + h.hostSize];
    offset := offset + h.hostSize;
    var port, expiry := FromBigEndian(raw[offset..offset + 2]), FromBigEndian(raw[offset + 2..offset + 6]);
    offset := offset + 6;
    var pin := raw[offset..offset + 32];
    offset := offset + 32;
    var name := FromAscii(Slice(raw, offset, offset + h.nameSize));
    offset := offset + h.nameSize;
    if name.None? || |raw| < tail { return None; }
    var groups := TakeGroups(raw, offset, |raw| - tail, h.count);
    if groups.None? { return None; }
    if groups.value.next != |raw| - tail || !Ascending(groups.value.values) { return None; }
    if expiry <= now || expiry > later + 3600 { return None; }
    r := Some(Advert(h.version, host, port, name.value, pin, expiry,
                     if h.version == 3 then Some(Slice(raw, |raw| - 160, |raw| - 96)) else None,
                     if h.version == 3 then Some(Slice(raw, |raw| - 96, |raw| - 64)) else None,
                     key, if groups.value.values != [] then "groups" else "public", groups.value.values));
  }

  // ------------------------------------------------------ the size check at start-up

  /** The loop in Start that counts the bytes of the group list. */
  method CountGroupBytes(ids: seq<nat>) returns (n: nat)
    ensures n == |Packed(ids)|
  {
    n := 0;
    var i := 0;
    while i < |ids|
      invariant 0 <= i <= |ids| && n == |Packed(ids[..i])|
    {
      var id := ids[i];
      ghost var before := n;
      n := n + 1;
      while id >= 128
        invariant n - 1 + |Varint(id)| == before + |Varint(ids[i])|
      {
        n := n + 1;
        id := id / 128;
      }
      assert ids[..i + 1][..|ids[..i + 1]| - 1] == ids[..i];
      i := i + 1;
    }
    assert ids[..|ids|] == ids;
  }

  /** The size Start expects of an announcement. */
  function PredictedSize(hostSize: nat, nameSize: nat, groupBytes: nat, tickets: bool): nat
  {
    (if tickets then 3 else 4) + hostSize + 6 + 32 + nameSize + groupBytes + if tickets then 160 else 96
  }

  /** Start's check: does the announcement of this configuration fit? */
  method Fits(ids: seq<nat>, hostSize: nat, nameSize: nat, tickets: bool) returns (ok: bool)
    ensures ok <==> PredictedSize(hostSize, nameSize, |Packed(ids)|, tickets) <= 316
  {
    var groupBytes := CountGroupBytes(ids);
    var tail, header := 96, 4;
    if tickets { tail, header := 160, 3; }
    ok := !(header + hostSize + 6 + 32 + nameSize + groupBytes + tail > 316);
  }

  lemma {:induction false} PackedCons(g: nat, gs: seq<nat>)
    ensures |Packed([g] + gs)| == |Varint(g)| + |Packed(gs)|
  {
    if gs == [] {
      assert [g] + gs == [g];
      assert [g][..0] == [];
    } else {
      var front := gs[..|gs| - 1];
      assert ([g] + gs)[..|gs|] == [g] + front;
      PackedCons(g, front);
    }
  }

  predicate AllValid(gs: seq<int>) { forall i :: 0 <= i < |gs| ==> ValidGroup(gs[i]) }

  lemma {:induction false} PackedInsert(g: int, gs: seq<int>)
    requires Rising(gs) && ValidGroup(g) && AllValid(gs)
    ensures AllValid(Insert(g, gs)) && |Packed(Insert(g, gs))| == |Varint(g)| + |Packed(gs)|
  {
    if gs == [] || g <= gs[0] {
      PackedCons(g, gs);
    } else {
      PackedInsert(g, gs[1..]);
      PackedCons(gs[0], Insert(g, gs[1..]));
      PackedCons(gs[0], gs[1..]);
      assert gs == [gs[0]] + gs[1..];
    }
  }

  /** Sorting the groups does not change how many bytes they take. */
  lemma {:induction false} PackedSorted(gs: seq<int>)
    requires AllValid(gs)
    ensures AllValid(Sorted(gs)) && |Packed(Sorted(gs))| == |Packed(gs)|
  {
    if gs != [] {
      PackedSorted(gs[..|gs| - 1]);
      PackedInsert(gs[|gs| - 1], Sorted(gs[..|gs| - 1]));
    }
  }

  /** For every offer the encoder accepts and the relay makes (tickets exactly in groups mode), the
      start-up formula is the length of the packet, and so it refuses exactly what encode refuses for
      its size. */
  lemma StartAgreesWithEncode(id: Identity, o: Offer)
    requires GoodIdentity(id) && Accepts(o) && (o.ticketKey.Some? <==> o.mode == "groups")
    ensures
      var size := PredictedSize(|o.host|, |o.name|, |Packed(o.groups)|, o.mode == "groups");
      && (Encoded(id, o) == Refused(TooLong) <==> size > 316)
      && (Encoded(id, o).Packet? ==> |Encoded(id, o).bytes| == size)
  {
    hide Packed, Label, Domain, Sorted, NoRepeats, Fields, Head;
    PackedSorted(o.groups);
  }

  lemma {:induction false} VarintSize(v: nat, k: nat)
    requires k >= 1 && v < Power128(k)
    ensures |Varint(v)| <= k
  {
    if v >= 128 {
      assert k > 1 by { assert Power128(1) == 128 * Power128(0); }
      assert v / 128 < Power128(k - 1) by { assert Power128(k) == 128 * Power128(k - 1); }
      VarintSize(v / 128, k - 1);
    }
  }

  lemma {:induction false} PackedSize(gs: seq<int>)
    requires AllValid(gs)
    ensures |Packed(gs)| <= 5 * |gs|
  {
    if gs != [] {
      PackedSize(gs[..|gs| - 1]);
      GroupFitsFiveBytes(gs[|gs| - 1]);
      VarintSize(gs[|gs| - 1], 5);
    }
  }

  /** Any name of at most 19 bytes fits, whatever the groups and the address family. */
  lemma ShortNamesFit(ids: seq<int>, hostSize: nat, nameSize: nat, tickets: bool)
    requires |ids| <= 16 && AllValid(ids) && hostSize <= 16 && nameSize <= 19
    ensures PredictedSize(hostSize, nameSize, |Packed(ids)|, tickets) <= 316
  {
    PackedSize(ids);
  }
}
