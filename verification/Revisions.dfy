/** Decimal revisions: the strings that a target's writes count up through. */
module Revisions {
  const MAX_REVISION := 0xFFFF_FFFF_FFFF_FFFF

  predicate Digit(c: char) { '0' <= c <= '9' }

  predicate AllDigits(s: string) { forall i :: 0 <= i < |s| ==> Digit(s[i]) }

  /** The number that a string of digits spells. */
  function Value(s: string): nat
    requires AllDigits(s)
  {
    if s == "" then 0 else 10 * Value(s[..|s| - 1]) + (s[|s| - 1] as int - '0' as int)
  }

  /** Canonical unsigned decimal: no leading zero, at most 64 bits. */
  predicate ValidDecimalRevision(value: string) {
    && value != "" && |value| <= 20 && (|value| > 1 ==> value[0] != '0')
    && AllDigits(value) && Value(value) <= MAX_REVISION
  }

  predicate NextDecimalRevision(previous: string, next: string) {
    && ValidDecimalRevision(previous) && ValidDecimalRevision(next)
    && Value(previous) != MAX_REVISION && Value(next) == Value(previous) + 1
  }

  /** The one canonical spelling of a number. */
  function Decimal(n: nat): (s: string)
    ensures s != "" && AllDigits(s) && (|s| > 1 ==> s[0] != '0') && Value(s) == n
  {
    if n < 10 then [('0' as int + n) as char]
    else
      var s := Decimal(n / 10) + [('0' as int + n % 10) as char];
      assert s[..|s| - 1] == Decimal(n / 10);
      s
  }

  lemma {:induction false} LeadingDigitCounts(s: string)
    requires s != "" && AllDigits(s) && s[0] != '0'
    ensures Value(s) > 0 && (|s| > 1 ==> Value(s) >= 10)
  {
    if |s| > 1 { LeadingDigitCounts(s[..|s| - 1]); }
  }

  lemma {:induction false} DecimalOfValue(s: string)
    requires s != "" && AllDigits(s) && (|s| > 1 ==> s[0] != '0')
    ensures Decimal(Value(s)) == s
  {
    var n := |s| - 1;
    assert s == s[..n] + [s[n]];
    if n > 0 {
      LeadingDigitCounts(s);
      DecimalOfValue(s[..n]);
      assert Value(s) / 10 == Value(s[..n]) && Value(s) % 10 == s[n] as int - '0' as int;
    } else {
      assert Value(s[..0]) == 0;
    }
  }

  function Power10(k: nat): nat { if k == 0 then 1 else 10 * Power10(k - 1) }

  lemma {:induction false} DecimalLength(n: nat, k: nat)
    requires 0 < k && n < Power10(k)
    ensures |Decimal(n)| <= k
  {
    if n >= 10 {
      assert k > 1;
      DecimalLength(n / 10, k - 1);
    }
  }

  lemma MaxRevisionLength(n: nat)
    requires n <= MAX_REVISION
    ensures |Decimal(n)| <= 20
  {
    assert Power10(4) == 10_000;
    assert Power10(8) == 10_000_0000;
    assert Power10(12) == 10_000_0000_0000;
    assert Power10(16) == 10_000_0000_0000_0000;
    assert Power10(20) == 10_000_0000_0000_0000_0000;
    DecimalLength(n, 20);
  }

  /** The valid revisions are exactly the canonical spellings of the 64-bit numbers. */
  lemma ValidMeansCanonical(value: string)
    ensures ValidDecimalRevision(value) <==> exists n: nat | n <= 18_446_744_073_709_551_615 :: value == Decimal(n)
  {
    if ValidDecimalRevision(value) {
      DecimalOfValue(value);
      assert value == Decimal(Value(value));
    }
    forall n: nat | n <= MAX_REVISION && value == Decimal(n) ensures ValidDecimalRevision(value) {
      MaxRevisionLength(n);
    }
  }

  /** A revision has exactly one next revision, and the last one has none. */
  lemma NextIsUnique(previous: string, next: string)
    ensures NextDecimalRevision(previous, next)
            <==> ValidDecimalRevision(previous) && Value(previous) < MAX_REVISION
                 && next == Decimal(Value(previous) + 1)
  {
    if NextDecimalRevision(previous, next) {
      DecimalOfValue(next);
    }
    if ValidDecimalRevision(previous) && Value(previous) < MAX_REVISION && next == Decimal(Value(previous) + 1) {
      MaxRevisionLength(Value(previous) + 1);
    }
  }

  /** `to` is `from` after exactly `writes` next revisions. */
  ghost predicate Reached(from: string, to: string, writes: nat) {
    if writes == 0 then to == from
    else ValidDecimalRevision(from) && ValidDecimalRevision(to) && to == Decimal(Value(from) + writes)
  }

  lemma ReachedNext(from: string, via: string, to: string, writes: nat)
    requires Reached(from, via, writes) && NextDecimalRevision(via, to)
    ensures Reached(from, to, writes + 1)
  {
    NextIsUnique(via, to);
  }

  /** So a chain of writes counts, and a revision never comes back. */
  lemma ReachedNeverRepeats(from: string, to: string, writes: nat)
    requires Reached(from, to, writes)
    ensures writes > 0 ==> Value(to) == Value(from) + writes && to != from
  {
  }
}
