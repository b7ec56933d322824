/**
 Base58 with leading-zero handling: two radix conversions that are each other's inverse.
 */
module Base58 {
  import opened Options

  // --------------------------------------------------------- positional numerals

  /** Digits below the base, most significant first. */
  predicate Numeral(ds: seq<nat>, base: nat) { forall i :: 0 <= i < |ds| ==> ds[i] < base }

  function ValueOf(ds: seq<nat>, base: nat): nat
  {
    if ds == [] then 0 else ValueOf(ds[..|ds| - 1], base) * base + ds[|ds| - 1]
  }

  /** The numeral of n without leading zeros; nothing for zero. */
  function DigitsOf(n: nat, base: nat): (ds: seq<nat>)
    requires base >= 2
    ensures Numeral(ds, base)
    ensures ds != [] ==> ds[0] != 0
    ensures ds == [] <==> n == 0
  {
    if n == 0 then [] else DigitsOf(n / base, base) + [n % base]
  }

  function Zeros(k: nat): (ds: seq<nat>)
    ensures |ds| == k && forall i :: 0 <= i < k ==> ds[i] == 0
  {
    seq(k, i => 0)
  }

  function LeadingZeros(ds: seq<nat>): (k: nat)
    ensures k <= |ds| && (forall i :: 0 <= i < k ==> ds[i] == 0) && (k < |ds| ==> ds[k] != 0)
  {
    if ds == [] || ds[0] != 0 then 0 else 1 + LeadingZeros(ds[1..])
  }

  /** A numeral rewritten in another base, with as many leading zeros as before. */
  function Convert(ds: seq<nat>, from: nat, to: nat): (r: seq<nat>)
    requires to >= 2
    ensures Numeral(r, to)
  {
    Zeros(LeadingZeros(ds)) + DigitsOf(ValueOf(ds, from), to)
  }

  lemma DivModSplit(n: nat, base: nat)
    requires base >= 2
    ensures n == n / base * base + n % base
  {
  }

  lemma MulAtLeast(k: nat, base: nat)
    requires k >= 1
    ensures k * base >= base
  {
  }

  lemma QuotientIsUnique(q: nat, r: nat, q': nat, r': nat, base: nat)
    requires r < base && r' < base && q * base + r == q' * base + r'
    ensures q == q' && r == r'
  {
    if q < q' {
      assert (q' - q) * base == q' * base - q * base;
      MulAtLeast(q' - q, base);
    } else if q > q' {
      assert (q - q') * base == q * base - q' * base;
      MulAtLeast(q - q', base);
    }
  }

  lemma DivMod(q: nat, r: nat, base: nat)
    requires base >= 2 && r < base
    ensures (q * base + r) / base == q && (q * base + r) % base == r
  {
    var n := q * base + r;
    DivModSplit(n, base);
    QuotientIsUnique(q, r, n / base, n % base, base);
  }

  lemma QuotientShrinks(n: nat, base: nat)
    requires base >= 2 && n != 0
    ensures n / base < n
  {
  }

  lemma DigitsLast(n: nat, base: nat, q: nat, r: nat)
    requires base >= 2 && n != 0 && q == n / base && r == n % base
    ensures DigitsOf(n, base) == DigitsOf(q, base) + [r]
  {
  }

  lemma {:induction false} ValueOfDigits(n: nat, base: nat)
    requires base >= 2
    ensures ValueOf(DigitsOf(n, base), base) == n
  {
    if n == 0 {
      ValueOfNothing(base);
    } else {
      hide ValueOf, DigitsOf;
      var q, r := n / base, n % base;
      QuotientShrinks(n, base);
      DivModSplit(n, base);
      ValueOfDigits(q, base);
      DigitsLast(n, base, q, r);
      ValueOfAppend(DigitsOf(q, base), r, base);
    }
  }

  lemma ValueOfNothing(base: nat)
    ensures ValueOf([], base) == 0
  {
  }

  lemma ValueOfAppend(ds: seq<nat>, d: nat, base: nat)
    ensures ValueOf(ds + [d], base) == ValueOf(ds, base) * base + d
  {
    assert (ds + [d])[..|ds + [d]| - 1] == ds;
  }

  lemma {:induction false} ValueIsPositive(ds: seq<nat>, base: nat)
    requires base >= 2 && ds != [] && ds[0] != 0
    ensures ValueOf(ds, base) > 0
  {
    if |ds| > 1 {
      ValueIsPositive(ds[..|ds| - 1], base);
    }
  }

  lemma {:induction false} DigitsOfValue(ds: seq<nat>, base: nat)
    requires base >= 2 && Numeral(ds, base) && (ds != [] ==> ds[0] != 0)
    ensures DigitsOf(ValueOf(ds, base), base) == ds
  {
    if ds != [] {
      var front, last := ds[..|ds| - 1], ds[|ds| - 1];
      ValueIsPositive(ds, base);
      DivMod(ValueOf(front, base), last, base);
      DigitsOfValue(front, base);
    }
  }

  lemma {:induction false} ZerosAddNothing(k: nat, ds: seq<nat>, base: nat)
    ensures ValueOf(Zeros(k) + ds, base) == ValueOf(ds, base)
  {
    if ds == [] {
      if k > 0 {
        ZerosAddNothing(k - 1, [], base);
        assert (Zeros(k) + ds)[..k - 1] == Zeros(k - 1) + ds;
      }
    } else {
      var front := ds[..|ds| - 1];
      assert (Zeros(k) + ds)[..|Zeros(k) + ds| - 1] == Zeros(k) + front;
      ZerosAddNothing(k, front, base);
    }
  }

  lemma {:induction false} LeadingZerosOf(k: nat, ds: seq<nat>)
    requires ds != [] ==> ds[0] != 0
    ensures LeadingZeros(Zeros(k) + ds) == k
  {
    if k > 0 {
      assert (Zeros(k) + ds)[1..] == Zeros(k - 1) + ds;
      LeadingZerosOf(k - 1, ds);
    } else {
      assert Zeros(0) + ds == ds;
    }
  }

  /** Converting to another base and back gives the same numeral, leading zeros included. */
  lemma ConvertBack(ds: seq<nat>, from: nat, to: nat)
    requires from >= 2 && to >= 2 && Numeral(ds, from)
    ensures Convert(Convert(ds, from, to), to, from) == ds
  {
    var k := LeadingZeros(ds);
    var rest := ds[k..];
    assert ds == Zeros(k) + rest;
    ZerosAddNothing(k, rest, from);
    var n := ValueOf(rest, from);
    LeadingZerosOf(k, DigitsOf(n, to));
    ZerosAddNothing(k, DigitsOf(n, to), to);
    ValueOfDigits(n, to);
    DigitsOfValue(rest, from);
  }

  // ----------------------------------------------------------------- alphabet

  const ALPHABET := "123456789" + "ABCDEFGH" + "JKLMN" + "PQRSTUVWXYZ" + "abcdefghijk" + "mnopqrstuvwxyz"

  predicate Consecutive(s: string) { forall i :: 0 < i < |s| ==> s[i] as int == s[0] as int + i }

  lemma AlphabetRuns()
    ensures Consecutive("123456789") && Consecutive("ABCDEFGH") && Consecutive("JKLMN")
    ensures Consecutive("PQRSTUVWXYZ") && Consecutive("abcdefghijk") && Consecutive("mnopqrstuvwxyz")
  {
  }

  /** The code of the letter of a digit, run by run of the alphabet. */
  function LetterCode(d: nat): int
  {
    if d < 9 then 49 + d else if d < 17 then 65 + (d - 9) else if d < 22 then 74 + (d - 17)
    else if d < 33 then 80 + (d - 22) else if d < 44 then 97 + (d - 33) else 109 + (d - 44)
  }

  lemma LetterHasCode(d: nat)
    requires d < 58
    ensures |ALPHABET| == 58 && ALPHABET[d] as int == LetterCode(d)
  {
    AlphabetRuns();
    if d < 9 {
      assert ALPHABET[d] == "123456789"[d];
    } else if d < 17 {
      assert ALPHABET[d] == "ABCDEFGH"[d - 9];
    } else if d < 22 {
      assert ALPHABET[d] == "JKLMN"[d - 17];
    } else if d < 33 {
      assert ALPHABET[d] == "PQRSTUVWXYZ"[d - 22];
    } else if d < 44 {
      assert ALPHABET[d] == "abcdefghijk"[d - 33];
    } else {
      assert ALPHABET[d] == "mnopqrstuvwxyz"[d - 44];
    }
  }

  lemma AlphabetAscends(i: nat, j: nat)
    requires i < j < 58
    ensures |ALPHABET| == 58 && ALPHABET[i] < ALPHABET[j]
  {
    LetterHasCode(i);
    LetterHasCode(j);
  }

  /** strings.IndexRune: the first position of c at or after i, or -1. */
  function IndexFrom(c: char, i: nat): (r: int)
    requires i <= |ALPHABET|
    ensures r == -1 ==> forall j :: i <= j < |ALPHABET| ==> ALPHABET[j] != c
    ensures r != -1 ==> i <= r < |ALPHABET| && ALPHABET[r] == c
    decreases |ALPHABET| - i
  {
    if i == |ALPHABET| then -1 else if ALPHABET[i] == c then i else IndexFrom(c, i + 1)
  }

  function IndexOf(c: char): int { IndexFrom(c, 0) }

  lemma IndexOfLetter(d: nat)
    requires d < 58
    ensures |ALPHABET| == 58 && IndexOf(ALPHABET[d]) == d
  {
    assert |ALPHABET| == 58;
    var r := IndexOf(ALPHABET[d]);
    if 0 <= r < d { AlphabetAscends(r, d); } else if r > d { AlphabetAscends(d, r); }
  }

  // ------------------------------------------------------------------- the codec

  function Letter(d: nat): char
    requires d < 58
  {
    assert |ALPHABET| == 58;
    ALPHABET[d]
  }

  function Letters(ds: seq<nat>): (s: string)
    requires Numeral(ds, 58)
    ensures |s| == |ds| && forall i :: 0 <= i < |s| ==> s[i] == Letter(ds[i])
  {
    seq(|ds|, i requires 0 <= i < |ds| => Letter(ds[i]))
  }

  predicate InAlphabet(s: string) { forall i :: 0 <= i < |s| ==> IndexOf(s[i]) >= 0 }

  function Indices(s: string): (ds: seq<nat>)
    requires InAlphabet(s)
    ensures |ds| == |s| && Numeral(ds, 58) && forall i :: 0 <= i < |s| ==> ds[i] == IndexOf(s[i])
  {
    seq(|s|, i requires 0 <= i < |s| => IndexOf(s[i]))
  }

  /** The text of a byte string: the conversion from base 256 to base 58, spelled out. */
  function Encoded(b: seq<nat>): string { Letters(Convert(b, 256, 58)) }

  const MAX_TEXT := 100

  function Decoded(s: string, size: nat): Option<seq<nat>>
  {
    if |s| > MAX_TEXT || s == "" || !InAlphabet(s) then None
    else
      var b := Convert(Indices(s), 58, 256);
      if |b| == size then Some(b) else None
  }

  /** encodeBase58: the digits come out least significant first and are turned round at the end. */
  method Encode(b: seq<nat>) returns (s: string)
    requires Numeral(b, 256)
    ensures s == Encoded(b)
  {
    hide ValueOf, LeadingZeros, Letter, DigitsOf, Reversed;
    var out := LowDigits(ValueOf(b, 256));
    ghost var digits := DigitsOf(ValueOf(b, 256), 58);
    assert Zeros(0) + digits == digits;
    var i := 0;
    while i < |b| && b[i] == 0
      invariant 0 <= i <= |b| && forall j :: 0 <= j < i ==> b[j] == 0
      invariant Reversed(out) == Letters(Zeros(i) + digits)
    {
      LettersOfZeros(i, digits);
      ReversedGrows(out, '1');
      out := out + "1";
      i := i + 1;
    }
    LeadingZerosAre(b, i);
    s := Turn(out);
  }

  /** The division loop. */
  method LowDigits(value: nat) returns (out: string)
    ensures Reversed(out) == Letters(DigitsOf(value, 58))
  {
    hide Letter, Reversed;
    var n := value;
    out := "";
    assert Reversed("") == "";
    while n > 0
      invariant Letters(DigitsOf(value, 58)) == Letters(DigitsOf(n, 58)) + Reversed(out)
    {
      var mod := n % 58;
      LettersGrow(DigitsOf(n / 58, 58), mod);
      ReversedGrows(out, Letter(mod));
      n := n / 58;
      out := out + [Letter(mod)];
    }
  }

  lemma ReversedGrows(s: string, c: char)
    ensures Reversed(s + [c]) == [c] + Reversed(s)
  {
  }

  lemma LettersGrow(ds: seq<nat>, d: nat)
    requires Numeral(ds, 58) && d < 58
    ensures Letters(ds + [d]) == Letters(ds) + [Letter(d)]
  {
  }

  lemma LettersOfZeros(k: nat, ds: seq<nat>)
    requires Numeral(ds, 58)
    ensures Letters(Zeros(k + 1) + ds) == "1" + Letters(Zeros(k) + ds)
  {
    assert ALPHABET[0] == '1';
    assert Zeros(k + 1) + ds == [0] + (Zeros(k) + ds);
  }

  function Reversed(s: string): (r: string)
    ensures |r| == |s| && forall i :: 0 <= i < |s| ==> r[i] == s[|s| - 1 - i]
  {
    if s == "" then "" else [s[|s| - 1]] + Reversed(s[..|s| - 1])
  }

  /** The final loop of encodeBase58: swap from both ends. */
  method Turn(s: string) returns (r: string)
    ensures r == Reversed(s)
  {
    r := s;
    var i, j := 0, |s| - 1;
    while i < j
      invariant 0 <= i <= j + 1 <= |s| && i + j == |s| - 1 && |r| == |s|
      invariant forall k :: i <= k <= j ==> r[k] == s[k]
      invariant forall k :: 0 <= k < i ==> r[k] == s[|s| - 1 - k] && r[|s| - 1 - k] == s[k]
    {
      r := r[i := r[j]][j := r[i]];
      i, j := i + 1, j - 1;
    }
  }

  lemma LeadingZerosAre(b: seq<nat>, k: nat)
    requires k <= |b| && (forall i :: 0 <= i < k ==> b[i] == 0) && (k < |b| ==> b[k] != 0)
    ensures LeadingZeros(b) == k
  {
  }

  /** decodeBase58. */
  method Decode(s: string, size: nat) returns (r: Option<seq<nat>>)
    ensures r == Decoded(s, size)
  {
    hide IndexOf, ValueOf, LeadingZeros;
    if |s| > MAX_TEXT || s == "" { return None; }
    var n := 0;
    var k := 0;
    assert ValueOf(Indices(s[..0]), 58) == 0 by { ValueOfNothing(58); }
    while k < |s|
      invariant 0 <= k <= |s| && InAlphabet(s[..k]) && n == ValueOf(Indices(s[..k]), 58)
    {
      var i := IndexOf(s[k]);
      if i < 0 {
        assert !InAlphabet(s);
        return None;
      }
      n := n * 58 + i;
      assert s[..k + 1] == s[..k] + [s[k]];
      assert Indices(s[..k + 1]) == Indices(s[..k]) + [i];
      ValueOfAppend(Indices(s[..k]), i, 58);
      k := k + 1;
    }
    assert s[..|s|] == s;
    var b := DigitsOf(n, 256);
    k := 0;
    while k < |s| && s[k] == '1'
      invariant 0 <= k <= |s| && forall j :: 0 <= j < k ==> s[j] == '1'
      invariant b == Zeros(k) + DigitsOf(n, 256)
    {
      b := [0] + b;
      k := k + 1;
      assert Zeros(k) == [0] + Zeros(k - 1);
    }
    OnesAreZeros(s, k);
    return if |b| == size then Some(b) else None;
  }

  lemma OnesAreZeros(s: string, k: nat)
    requires InAlphabet(s) && k <= |s| && (forall i :: 0 <= i < k ==> s[i] == '1') && (k < |s| ==> s[k] != '1')
    ensures LeadingZeros(Indices(s)) == k
  {
    IndexOfLetter(0);
    assert ALPHABET[0] == '1';
    LeadingZerosAre(Indices(s), k);
  }

  // ------------------------------------------------------------- main results

  lemma IndicesOfLetters(ds: seq<nat>)
    requires Numeral(ds, 58)
    ensures InAlphabet(Letters(ds)) && Indices(Letters(ds)) == ds
  {
    forall i | 0 <= i < |ds|
      ensures IndexOf(Letters(ds)[i]) == ds[i]
    {
      IndexOfLetter(ds[i]);
    }
  }

  lemma LettersOfIndices(s: string)
    requires InAlphabet(s)
    ensures Letters(Indices(s)) == s
  {
  }

  /** Decoding what was encoded gives it back exactly when the text is not too long (and there is one). */
  lemma DecodeEncoded(b: seq<nat>)
    requires Numeral(b, 256)
    ensures Decoded(Encoded(b), |b|) == Some(b) <==> b != [] && |Encoded(b)| <= MAX_TEXT
  {
    var ds := Convert(b, 256, 58);
    IndicesOfLetters(ds);
    ConvertBack(b, 256, 58);
  }

  /** Whatever decodes is the encoding of what it decodes to. */
  lemma EncodeDecoded(s: string, size: nat)
    requires Decoded(s, size).Some?
    ensures Numeral(Decoded(s, size).value, 256) && |Decoded(s, size).value| == size && Encoded(Decoded(s, size).value) == s
  {
    ConvertBack(Indices(s), 58, 256);
    LettersOfIndices(s);
  }

  // ---------------------------------------------------------- how long a text gets

  function Power(base: nat, n: nat): (p: nat)
    ensures base >= 1 ==> p >= 1
  {
    if n == 0 then 1 else base * Power(base, n - 1)
  }

  lemma DigitStaysBelow(v: nat, d: nat, base: nat, p: nat)
    requires v < p && d < base
    ensures v * base + d < base * p
  {
    MulMonotone(v + 1, p, base);
    assert (v + 1) * base == v * base + base;
  }

  lemma {:induction false} ValueBelowPower(ds: seq<nat>, base: nat)
    requires base >= 2 && Numeral(ds, base)
    ensures ValueOf(ds, base) < Power(base, |ds|)
  {
    if ds != [] {
      var front := ds[..|ds| - 1];
      ValueBelowPower(front, base);
      DigitStaysBelow(ValueOf(front, base), ds[|ds| - 1], base, Power(base, |front|));
    }
  }

  lemma MulMonotone(x: nat, y: nat, k: nat)
    requires x <= y
    ensures x * k <= y * k
  {
  }

  lemma QuotientBelow(n: nat, base: nat, p: nat)
    requires base >= 2 && n < base * p
    ensures n / base < p
  {
    DivModSplit(n, base);
    if p <= n / base { MulMonotone(p, n / base, base); }
  }

  lemma {:induction false} FewDigits(n: nat, base: nat, k: nat)
    requires base >= 2 && n < Power(base, k)
    ensures |DigitsOf(n, base)| <= k
  {
    if n != 0 {
      QuotientBelow(n, base, Power(base, k - 1));
      FewDigits(n / base, base, k - 1);
    }
  }

  lemma {:induction false} PowerAdd(base: nat, m: nat, n: nat)
    ensures Power(base, m + n) == Power(base, m) * Power(base, n)
  {
    if m > 0 {
      PowerAdd(base, m - 1, n);
      MulAssoc(base, Power(base, m - 1), Power(base, n));
    }
  }

  lemma MulAssoc(x: nat, y: nat, z: nat)
    ensures x * (y * z) == (x * y) * z
  {
  }

  lemma SquareMonotone(x: nat, y: nat)
    requires x <= y
    ensures x * x <= y * y
  {
    MulMonotone(x, y, x);
    MulMonotone(x, y, y);
  }

  lemma QuarterOfThePowers()
    ensures 4 * Power(256, 18) <= Power(58, 25)
  {
    assert Power(58, 5) == 656356768;
    PowerAdd(58, 5, 5);
    PowerAdd(58, 10, 10);
    PowerAdd(58, 20, 5);
    assert Power(58, 25) == 121814739012626444160521369338174330862829568;
    assert Power(256, 3) == 16777216;
    PowerAdd(256, 3, 3);
    PowerAdd(256, 6, 6);
    PowerAdd(256, 12, 6);
    assert Power(256, 18) == 22300745198530623141535718272648361505980416;
  }

  lemma FourfoldToTheFourth(c: nat, a: nat)
    requires 4 * c <= a
    ensures 256 * ((c * c) * (c * c)) <= (a * a) * (a * a)
  {
    var d := c * c;
    SquareMonotone(4 * c, a);
    assert (4 * c) * (4 * c) == 16 * d;
    SquareMonotone(16 * d, a * a);
    assert (16 * d) * (16 * d) == 256 * (d * d);
  }

  lemma {:induction false} PowerOfFour(base: nat, n: nat)
    ensures Power(base, 4 * n) == (Power(base, n) * Power(base, n)) * (Power(base, n) * Power(base, n))
  {
    PowerAdd(base, n, n);
    PowerAdd(base, 2 * n, 2 * n);
  }

  /** 73 bytes always fit 100 letters: 256^73 <= 58^100. */
  lemma PowersAt73()
    ensures Power(256, 73) <= Power(58, 100)
  {
    var n, m := 18, 25;
    QuarterOfThePowers();
    FourfoldToTheFourth(Power(256, n), Power(58, m));
    PowerOfFour(256, n);
    PowerOfFour(58, m);
    PowerStep(256, 4 * n);
    hide Power;
  }

  lemma PowerStep(base: nat, n: nat)
    ensures Power(base, n + 1) == base * Power(base, n)
  {
  }

  lemma {:induction false} PowersBelow73(k: nat)
    requires k <= 73
    ensures Power(256, k) <= Power(58, k + 27)
    decreases 73 - k
  {
    if k == 73 {
      PowersAt73();
    } else {
      PowersBelow73(k + 1);
    }
  }

  /** For every byte string of 1 to 73 bytes, leading zeros included, the text stays within the
      decoder's limit, and so decoding gives the bytes back. */
  lemma RoundTrip(b: seq<nat>)
    requires Numeral(b, 256) && 1 <= |b| <= 73
    ensures |Encoded(b)| <= MAX_TEXT && Decoded(Encoded(b), |b|) == Some(b)
  {
    var k := LeadingZeros(b);
    var rest := b[k..];
    assert b == Zeros(k) + rest;
    ZerosAddNothing(k, rest, 256);
    ValueBelowPower(rest, 256);
    PowersBelow73(|rest|);
    FewDigits(ValueOf(b, 256), 58, |rest| + 27);
    DecodeEncoded(b);
  }
}
