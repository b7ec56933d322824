/**
 Record keys as the database stores them, and the two cursor loops that prune them. Rows are texts in
 byte order; the record buckets use "<epoch on 12 digits>:<id>", the key bucket "<revision>:<epoch>".
 */
module RecordText {
  import opened Clock
  import opened Options
  import opened TicketStore

  // ------------------------------------------------------------------ numerals

  function Power10(n: nat): (p: nat)
    ensures p > 0
  {
    if n == 0 then 1 else 10 * Power10(n - 1)
  }

  predicate IsDigit(c: char) { '0' <= c <= '9' }

  function DigitChar(n: nat): (c: char)
    requires n < 10
    ensures IsDigit(c)
  {
    '0' + n as char
  }

  function DigitValue(c: char): (n: nat)
    requires IsDigit(c)
    ensures n < 10
  {
    (c - '0') as nat
  }

  /** The numeral of n on exactly `width` digits. */
  function Padded(n: nat, width: nat): (s: string)
    requires n < Power10(width)
    ensures |s| == width && forall i :: 0 <= i < |s| ==> IsDigit(s[i])
  {
    if width == 0 then "" else Padded(n / 10, width - 1) + [DigitChar(n % 10)]
  }

  predicate AllDigits(s: string) { forall i :: 0 <= i < |s| ==> IsDigit(s[i]) }

  function Value(s: string): nat
    requires AllDigits(s)
  {
    if s == "" then 0 else 10 * Value(s[..|s| - 1]) + DigitValue(s[|s| - 1])
  }

  const MAX_INT64 := 0x7fff_ffff_ffff_ffff

  /** strconv.ParseInt(s, 10, 64): an optional sign, at least one digit, nothing else, in range. */
  function ParseInt(s: string): Option<int>
  {
    var negative := |s| > 0 && s[0] == '-';
    var digits := if |s| > 0 && (s[0] == '-' || s[0] == '+') then s[1..] else s;
    if digits == "" || !AllDigits(digits) then None
    else
      var v := if negative then 0 - Value(digits) else Value(digits);
      if -MAX_INT64 - 1 <= v <= MAX_INT64 then Some(v) else None
  }

  lemma {:induction false} ValueOfPadded(n: nat, width: nat)
    requires n < Power10(width)
    ensures AllDigits(Padded(n, width)) && Value(Padded(n, width)) == n
  {
    if width > 0 {
      ValueOfPadded(n / 10, width - 1);
      assert Padded(n, width)[..width - 1] == Padded(n / 10, width - 1);
    }
  }

  const EPOCH_DIGITS := 12

  lemma Power10OfTwelve()
    ensures Power10(12) == 1_000_000_000_000
  {
    assert Power10(4) == 10_000;
    assert Power10(8) == 100_000_000;
  }

  lemma ParsePadded(n: nat)
    requires n < Power10(EPOCH_DIGITS)
    ensures ParseInt(Padded(n, EPOCH_DIGITS)) == Some(n)
  {
    ValueOfPadded(n, EPOCH_DIGITS);
    Power10OfTwelve();
    assert IsDigit(Padded(n, EPOCH_DIGITS)[0]);
  }

  // ---------------------------------------------------------------- byte order

  /** a comes strictly before b in the database. */
  predicate Before(a: string, b: string)
  {
    if b == "" then false
    else if a == "" then true
    else a[0] < b[0] || (a[0] == b[0] && Before(a[1..], b[1..]))
  }

  /** Texts that differ within a common length are ordered by that part alone. */
  lemma {:induction false} BeforeByPrefix(a: string, b: string, x: string, y: string)
    requires |a| == |b|
    ensures a != b ==> (Before(a + x, b + y) <==> Before(a, b))
    ensures a == b ==> (Before(a + x, b + y) <==> Before(x, y)) && !Before(a, b)
  {
    if a == "" {
      assert a + x == x && b + y == y;
    } else {
      assert (a + x)[1..] == a[1..] + x && (b + y)[1..] == b[1..] + y;
      BeforeByPrefix(a[1..], b[1..], x, y);
      assert a == [a[0]] + a[1..] && b == [b[0]] + b[1..];
    }
  }

  /** On numerals of one width, byte order is numeric order. */
  lemma {:induction false} PaddedOrder(m: nat, n: nat, width: nat)
    requires m < Power10(width) && n < Power10(width)
    ensures Before(Padded(m, width), Padded(n, width)) <==> m < n
    ensures Padded(m, width) == Padded(n, width) <==> m == n
  {
    if width > 0 {
      var a, b := Padded(m / 10, width - 1), Padded(n / 10, width - 1);
      PaddedOrder(m / 10, n / 10, width - 1);
      BeforeByPrefix(a, b, [DigitChar(m % 10)], [DigitChar(n % 10)]);
      ValueOfPadded(m, width);
      ValueOfPadded(n, width);
    }
  }

  // ------------------------------------------------------------------ row texts

  predicate EpochFits(epoch: int) { 0 <= epoch < 1_000_000_000_000 }

  /** fmt.Sprintf("%012d:%s", epoch, id). */
  function RowText(k: RecordKey): (s: string)
    requires EpochFits(k.epoch)
    ensures |s| == 13 + |k.id|
  {
    Power10OfTwelve();
    Padded(k.epoch, EPOCH_DIGITS) + ":" + k.id
  }

  lemma RowOrder(k: RecordKey, l: RecordKey)
    requires EpochFits(k.epoch) && EpochFits(l.epoch)
    ensures Before(RowText(k), RowText(l)) ==> k.epoch <= l.epoch
    ensures k.epoch < l.epoch ==> Before(RowText(k), RowText(l))
    ensures RowText(k) == RowText(l) ==> k == l
  {
    Power10OfTwelve();
    var a, b := Padded(k.epoch, EPOCH_DIGITS), Padded(l.epoch, EPOCH_DIGITS);
    PaddedOrder(k.epoch, l.epoch, EPOCH_DIGITS);
    BeforeByPrefix(a, b, ":" + k.id, ":" + l.id);
    assert RowText(k) == a + (":" + k.id) && RowText(l) == b + (":" + l.id);
    assert RowText(k)[..12] == a && RowText(l)[..12] == b;
    assert RowText(k)[13..] == k.id && RowText(l)[13..] == l.id;
  }

  // ---------------------------------------------------------- the two pruners

  /** strings.Split(s, ":"). */
  function Fields(s: string): (fs: seq<string>)
    ensures |fs| >= 1
  {
    var i := Colon(s, 0);
    if i == |s| then [s] else [s[..i]] + Fields(s[i + 1..])
  }

  /** The first colon at or after i, or the end. */
  function Colon(s: string, i: nat): (j: nat)
    requires i <= |s|
    ensures i <= j <= |s| && (j < |s| ==> s[j] == ':') && forall k :: i <= k < j ==> s[k] != ':'
    decreases |s| - i
  {
    if i == |s| || s[i] == ':' then i else Colon(s, i + 1)
  }

  /** The epoch descriptor reads off a row: the first field of a record, the second of a key. */
  function FieldEpoch(row: string, index: nat): Option<int>
  {
    if |Fields(row)| <= index then None else ParseInt(Fields(row)[index])
  }

  /** The epoch redeem reads off a row. */
  function PrefixEpoch(row: string): Option<int>
  {
    if |row| < 13 then None else ParseInt(row[..12])
  }

  function LiveRows(rows: seq<string>, index: nat, cutoff: int): seq<string>
  {
    if rows == [] then []
    else
      var last := rows[|rows| - 1];
      var epoch := FieldEpoch(last, index);
      LiveRows(rows[..|rows| - 1], index, cutoff) + if epoch.Some? && epoch.value > cutoff then [last] else []
  }

  /** descriptor's loop over one bucket: every row is looked at, a row it cannot read is an error. */
  method PruneAll(rows: seq<string>, index: nat, cutoff: int) returns (kept: Option<seq<string>>)
    ensures kept.None? <==> exists i :: 0 <= i < |rows| && FieldEpoch(rows[i], index).None?
    ensures kept.Some? ==> kept.value == LiveRows(rows, index, cutoff)
  {
    hide FieldEpoch;
    var out: seq<string> := [];
    var i := 0;
    while i < |rows|
      invariant 0 <= i <= |rows|
      invariant forall j :: 0 <= j < i ==> FieldEpoch(rows[j], index).Some?
      invariant out == LiveRows(rows[..i], index, cutoff)
    {
      var epoch := FieldEpoch(rows[i], index);
      if epoch.None? { return None; }
      if epoch.value > cutoff { out := out + [rows[i]]; }
      assert rows[..i + 1][..|rows[..i + 1]| - 1] == rows[..i];
      i := i + 1;
    }
    assert rows[..|rows|] == rows;
    return Some(out);
  }

  /** The rows before n have expired and, unless that is all of them, row n has not. */
  ghost predicate IsCut(rows: seq<string>, cutoff: int, n: nat)
  {
    && n <= |rows|
    && (forall i :: 0 <= i < n ==> PrefixEpoch(rows[i]).Some? && PrefixEpoch(rows[i]).value <= cutoff)
    && (n < |rows| ==> PrefixEpoch(rows[n]).Some? && PrefixEpoch(rows[n]).value > cutoff)
  }

  /** redeem's loop over one bucket: it stops at the first row that has not expired. */
  method PruneOrdered(rows: seq<string>, cutoff: int) returns (kept: Option<seq<string>>)
    ensures kept.Some? ==> exists n: nat :: IsCut(rows, cutoff, n) && kept.value == rows[n..]
    ensures kept.None? ==> exists i :: 0 <= i < |rows| && PrefixEpoch(rows[i]).None?
  {
    var n := 0;
    while n < |rows|
      invariant 0 <= n <= |rows|
      invariant forall i :: 0 <= i < n ==> PrefixEpoch(rows[i]).Some? && PrefixEpoch(rows[i]).value <= cutoff
    {
      var epoch := PrefixEpoch(rows[n]);
      if epoch.None? { return None; }
      if epoch.value > cutoff { break; }
      n := n + 1;
    }
    assert IsCut(rows, cutoff, n);
    return Some(rows[n..]);
  }

  // ----------------------------------------------------------- they agree

  /** `order` lists the records of a bucket as the cursor meets them: each once, in byte order. */
  ghost predicate Cursor(order: seq<RecordKey>, records: set<RecordKey>)
  {
    && (forall k :: k in records <==> k in order)
    && (forall i :: 0 <= i < |order| ==> EpochFits(order[i].epoch))
    && (forall i, j :: 0 <= i < j < |order| ==> Before(RowText(order[i]), RowText(order[j])))
  }

  function Texts(order: seq<RecordKey>): (rows: seq<string>)
    requires forall i :: 0 <= i < |order| ==> EpochFits(order[i].epoch)
    ensures |rows| == |order| && forall i :: 0 <= i < |rows| ==> rows[i] == RowText(order[i])
  {
    seq(|order|, i requires 0 <= i < |order| => RowText(order[i]))
  }

  /** Both pruners read the same epoch off a record's row: the record's own. */
  lemma BothReadTheEpoch(k: RecordKey)
    requires EpochFits(k.epoch)
    ensures FieldEpoch(RowText(k), 0) == PrefixEpoch(RowText(k)) == Some(k.epoch)
  {
    Power10OfTwelve();
    var row := RowText(k);
    assert row[..12] == Padded(k.epoch, EPOCH_DIGITS);
    ParsePadded(k.epoch);
    assert forall i :: 0 <= i < 12 ==> IsDigit(row[i]);
    assert row[12] == ':';
    assert Colon(row, 0) == 12;
    assert Fields(row)[0] == row[..12];
  }

  lemma LiveRowsAppend(rows: seq<string>, row: string, index: nat, cutoff: int)
    ensures
      var epoch := FieldEpoch(row, index);
      LiveRows(rows + [row], index, cutoff) == LiveRows(rows, index, cutoff) + if epoch.Some? && epoch.value > cutoff then [row] else []
  {
    hide FieldEpoch;
    assert (rows + [row])[..|rows|] == rows;
  }

  lemma SuffixOfAppend(rows: seq<string>, row: string, n: nat)
    requires n <= |rows| + 1
    ensures (rows + [row])[n..] == if n <= |rows| then rows[n..] + [row] else []
  {
  }

  lemma TextsLast(order: seq<RecordKey>)
    requires order != [] && forall i :: 0 <= i < |order| ==> EpochFits(order[i].epoch)
    ensures Texts(order) == Texts(order[..|order| - 1]) + [RowText(order[|order| - 1])]
  {
    hide RowText;
  }

  lemma {:induction false} LiveRowsOfCut(order: seq<RecordKey>, cutoff: int, n: nat)
    requires forall i :: 0 <= i < |order| ==> EpochFits(order[i].epoch)
    requires n <= |order|
    requires forall i :: 0 <= i < |order| ==> (order[i].epoch > cutoff <==> i >= n)
    ensures LiveRows(Texts(order), 0, cutoff) == Texts(order)[n..]
  {
    if order == [] {
      assert Texts(order) == [];
    } else {
      hide FieldEpoch, PrefixEpoch, RowText, LiveRows, EpochFits, Texts;
      var front, last := order[..|order| - 1], order[|order| - 1];
      var m := if n < |order| then n else |front|;
      BothReadTheEpoch(last);
      TextsLast(order);
      LiveRowsAppend(Texts(front), RowText(last), 0, cutoff);
      LiveRowsOfCut(front, cutoff, m);
      SuffixOfAppend(Texts(front), RowText(last), n);
      assert m == |front| ==> Texts(front)[m..] == [];
    }
  }

  /** The loop with the early exit keeps exactly the rows the full scan keeps: those of the records
      that live on after the hour. Neither fails. */
  lemma PrunersAgree(order: seq<RecordKey>, b: map<RecordKey, nat>, hour: int, n: nat)
    requires Cursor(order, b.Keys) && IsCut(Texts(order), hour - LIFETIME, n)
    ensures LiveRows(Texts(order), 0, hour - LIFETIME) == Texts(order)[n..]
    ensures forall i :: 0 <= i < |order| ==> FieldEpoch(Texts(order)[i], 0).Some? && PrefixEpoch(Texts(order)[i]).Some?
    ensures forall k :: k in LiveRecords(b, hour) <==> k in order[n..]
  {
    var cutoff := hour - LIFETIME;
    forall i | 0 <= i < |order|
      ensures FieldEpoch(Texts(order)[i], 0) == PrefixEpoch(Texts(order)[i]) == Some(order[i].epoch)
    {
      BothReadTheEpoch(order[i]);
    }
    forall i | 0 <= i < |order|
      ensures order[i].epoch > cutoff <==> i >= n
    {
      if i > n { RowOrder(order[n], order[i]); }
    }
    LiveRowsOfCut(order, cutoff, n);
    forall k
      ensures k in LiveRecords(b, hour) <==> k in order[n..]
    {
      if k in LiveRecords(b, hour) {
        var i :| 0 <= i < |order| && order[i] == k;
        assert order[n..][i - n] == k;
      }
    }
  }

  /** strconv.FormatInt(n, 10) for n >= 0. */
  function Decimal(n: nat): (s: string)
    ensures |s| >= 1 && AllDigits(s) && Value(s) == n
  {
    if n < 10 then
      var s := [DigitChar(n)];
      assert s[..0] == "";
      s
    else
      var s := Decimal(n / 10) + [DigitChar(n % 10)];
      assert s[..|s| - 1] == Decimal(n / 10);
      s
  }

  /** The key bucket: descriptor's scan reads the epoch after the revision, which holds no colon. */
  lemma KeyRowEpoch(revision: string, epoch: nat)
    requires ':' !in revision && epoch <= MAX_INT64
    ensures FieldEpoch(revision + ":" + Decimal(epoch), 1) == Some(epoch)
  {
    var digits := Decimal(epoch);
    var row := revision + ":" + digits;
    assert Colon(row, 0) == |revision| by {
      assert row[|revision|] == ':';
      assert forall i :: 0 <= i < |revision| ==> row[i] == revision[i];
    }
    assert row[|revision| + 1..] == digits;
    assert Colon(digits, 0) == |digits|;
    assert Fields(digits) == [digits];
    assert IsDigit(digits[0]);
    assert row[..|revision|] == revision;
    assert Fields(row) == [revision] + [digits];
  }
}
