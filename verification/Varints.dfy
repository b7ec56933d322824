/** Bytes, big-endian fields and the group IDs' variable-length integers. */
module Varints {
  import opened Options

  type byte = x: nat | x < 256

  // ------------------------------------------------------------ fixed-size fields

  function BigEndian(n: nat, width: nat): (bs: seq<byte>)
    ensures |bs| == width
  {
    if width == 0 then [] else BigEndian(n / 256, width - 1) + [n % 256]
  }

  function FromBigEndian(bs: seq<byte>): nat
  {
    if bs == [] then 0 else FromBigEndian(bs[..|bs| - 1]) * 256 + bs[|bs| - 1]
  }

  function Power256(n: nat): nat { if n == 0 then 1 else 256 * Power256(n - 1) }

  lemma {:induction false} ReadBack(n: nat, width: nat)
    requires n < Power256(width)
    ensures FromBigEndian(BigEndian(n, width)) == n
  {
    if width > 0 {
      ReadBack(n / 256, width - 1);
      assert BigEndian(n, width)[..width - 1] == BigEndian(n / 256, width - 1);
    }
  }

  lemma {:induction false} WriteBack(bs: seq<byte>)
    ensures BigEndian(FromBigEndian(bs), |bs|) == bs && FromBigEndian(bs) < Power256(|bs|)
  {
    if bs != [] {
      WriteBack(bs[..|bs| - 1]);
    }
  }

  // --------------------------------------------------------------------- varints

  /** Seven bits a byte, low bits first, the top bit set on all but the last byte. */
  function Varint(v: nat): (bs: seq<byte>)
    ensures |bs| >= 1
  {
    if v < 128 then [v] else [v % 128 + 128] + Varint(v / 128)
  }

  datatype Read = Read(value: nat, next: nat)

  const MAX_BYTES := 5

  /** Reads a varint at `at`, its k-th byte first; nothing may be read at or past `end`. A last byte of
      zero after another byte is not canonical. */
  function ReadVarint(raw: seq<byte>, at: nat, end: nat, k: nat): (r: Option<Read>)
    requires end <= |raw|
    ensures r.Some? ==> at < r.value.next <= end
    decreases MAX_BYTES - k
  {
    if k >= MAX_BYTES || at >= end then None
    else if raw[at] < 128 then
      if k > 0 && raw[at] == 0 then None else Some(Read(raw[at], at + 1))
    else
      var rest := ReadVarint(raw, at + 1, end, k + 1);
      if rest.None? then None else Some(Read(raw[at] - 128 + 128 * rest.value.value, rest.value.next))
  }

  /** What is read is written back byte for byte. */
  lemma {:induction false} VarintOfRead(raw: seq<byte>, at: nat, end: nat, k: nat)
    requires end <= |raw| && ReadVarint(raw, at, end, k).Some?
    ensures
      var r := ReadVarint(raw, at, end, k).value;
      raw[at..r.next] == Varint(r.value) && (k > 0 ==> r.value > 0)
    decreases MAX_BYTES - k
  {
    var r := ReadVarint(raw, at, end, k).value;
    if raw[at] < 128 {
      assert raw[at..at + 1] == [raw[at]];
    } else {
      VarintOfRead(raw, at + 1, end, k + 1);
      assert raw[at..r.next] == [raw[at]] + raw[at + 1..r.next];
    }
  }

  function Power128(n: nat): nat { if n == 0 then 1 else 128 * Power128(n - 1) }

  /** What is written is read back, if it takes no more bytes than are left. */
  lemma {:induction false} ReadOfVarint(raw: seq<byte>, at: nat, end: nat, k: nat, v: nat)
    requires k < MAX_BYTES && v < Power128(MAX_BYTES - k) && (k > 0 ==> v > 0)
    requires at + |Varint(v)| <= end <= |raw| && raw[at..at + |Varint(v)|] == Varint(v)
    ensures ReadVarint(raw, at, end, k) == Some(Read(v, at + |Varint(v)|))
    decreases MAX_BYTES - k
  {
    var bs := Varint(v);
    assert raw[at] == raw[at..at + |bs|][0] == bs[0];
    if v >= 128 {
      assert raw[at + 1..at + 1 + |Varint(v / 128)|] == raw[at..at + |bs|][1..] == Varint(v / 128);
      assert Power128(MAX_BYTES - k) == 128 * Power128(MAX_BYTES - k - 1);
      ReadOfVarint(raw, at + 1, end, k + 1, v / 128);
    }
  }

  // ------------------------------------------------------------------ group lists

  const MAX_GROUP := 0x8000_0000

  predicate ValidGroup(g: int) { 0 < g < MAX_GROUP }

  predicate Ascending(gs: seq<nat>) { forall i, j :: 0 <= i < j < |gs| ==> gs[i] < gs[j] }

  function Packed(gs: seq<nat>): seq<byte>
  {
    if gs == [] then [] else Packed(gs[..|gs| - 1]) + Varint(gs[|gs| - 1])
  }

  datatype ReadList = ReadList(values: seq<nat>, next: nat)

  function ReadGroups(raw: seq<byte>, at: nat, end: nat, count: nat): (r: Option<ReadList>)
    requires end <= |raw|
    ensures r.Some? ==> |r.value.values| == count && at <= r.value.next && (count > 0 ==> r.value.next <= end)
  {
    if count == 0 then Some(ReadList([], at))
    else
      var before := ReadGroups(raw, at, end, count - 1);
      if before.None? then None
      else
        var g := ReadVarint(raw, before.value.next, end, 0);
        if g.None? || !ValidGroup(g.value.value) then None
        else Some(ReadList(before.value.values + [g.value.value], g.value.next))
  }

  lemma {:induction false} PackedOfRead(raw: seq<byte>, at: nat, end: nat, count: nat)
    requires at <= |raw| && end <= |raw| && ReadGroups(raw, at, end, count).Some?
    ensures
      var r := ReadGroups(raw, at, end, count).value;
      && r.next <= |raw| && raw[at..r.next] == Packed(r.values)
      && forall i :: 0 <= i < |r.values| ==> ValidGroup(r.values[i])
  {
    if count > 0 {
      PackedOfRead(raw, at, end, count - 1);
      var before := ReadGroups(raw, at, end, count - 1).value;
      var r := ReadGroups(raw, at, end, count).value;
      VarintOfRead(raw, before.next, end, 0);
      assert raw[at..r.next] == raw[at..before.next] + raw[before.next..r.next];
      assert r.values[..|r.values| - 1] == before.values;
    }
  }

  lemma GroupFitsFiveBytes(g: nat)
    requires ValidGroup(g)
    ensures g < Power128(MAX_BYTES)
  {
    assert Power128(5) == 34_359_738_368;
  }

  lemma {:induction false} ReadOfPacked(raw: seq<byte>, at: nat, end: nat, gs: seq<nat>)
    requires forall i :: 0 <= i < |gs| ==> ValidGroup(gs[i])
    requires at + |Packed(gs)| <= end <= |raw| && raw[at..at + |Packed(gs)|] == Packed(gs)
    ensures ReadGroups(raw, at, end, |gs|) == Some(ReadList(gs, at + |Packed(gs)|))
  {
    hide Varint, ReadVarint, Power128, ReadGroups, Packed;
    if gs == [] {
      PackedOfNone(raw, at, end);
    } else {
      var front, last := gs[..|gs| - 1], gs[|gs| - 1];
      PackedLast(front, last);
      assert front + [last] == gs;
      SliceOfSum(raw, at, Packed(front), Varint(last));
      ReadOfPacked(raw, at, end, front);
      GroupFitsFiveBytes(last);
      ReadOfVarint(raw, at + |Packed(front)|, end, 0, last);
      ReadOneMore(raw, at, end, front, last, at + |Packed(front)|);
    }
  }

  lemma PackedOfNone(raw: seq<byte>, at: nat, end: nat)
    requires end <= |raw|
    ensures Packed([]) == [] && ReadGroups(raw, at, end, 0) == Some(ReadList([], at))
  {
  }

  lemma PackedLast(front: seq<nat>, last: nat)
    ensures Packed(front + [last]) == Packed(front) + Varint(last)
  {
    assert (front + [last])[..|front|] == front;
  }

  lemma ReadOneMore(raw: seq<byte>, at: nat, end: nat, front: seq<nat>, last: nat, mid: nat)
    requires end <= |raw| && ReadGroups(raw, at, end, |front|) == Some(ReadList(front, mid)) && ValidGroup(last)
    requires ReadVarint(raw, mid, end, 0) == Some(Read(last, mid + |Varint(last)|))
    ensures ReadGroups(raw, at, end, |front + [last]|) == Some(ReadList(front + [last], mid + |Varint(last)|))
  {
  }

  lemma SliceOfSum(raw: seq<byte>, at: nat, a: seq<byte>, b: seq<byte>)
    requires at + |a + b| <= |raw| && raw[at..at + |a + b|] == a + b
    ensures raw[at..at + |a|] == a && raw[at + |a|..at + |a| + |b|] == b
  {
    assert raw[at..at + |a|] == raw[at..at + |a + b|][..|a|];
    assert raw[at + |a|..at + |a| + |b|] == raw[at..at + |a + b|][|a|..];
  }
}
