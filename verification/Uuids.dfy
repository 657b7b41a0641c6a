/** The spelling of resume identifiers and idempotency keys. */
module Uuids {
  predicate HexDigit(c: char) { '0' <= c <= '9' || 'a' <= c <= 'f' }

  /** A lower-case, hyphenated UUID other than the nil one. */
  predicate ValidUuid(value: string) {
    && |value| == 36
    && (forall i :: 0 <= i < 36 ==> if i in {8, 13, 18, 23} then value[i] == '-' else HexDigit(value[i]))
    && exists i :: 0 <= i < 36 && value[i] != '-' && value[i] != '0'
  }

  const DIGITS := {'0', '1', '2', '3', '4', '5', '6', '7', '8', '9', 'a', 'b', 'c', 'd', 'e', 'f'}

  lemma HexDigits()
    ensures forall c :: HexDigit(c) <==> c in DIGITS
  {
  }

  /** Lower-case hexadecimal text of this length. */
  predicate Hex(s: string, length: nat) { |s| == length && forall c <- s :: c in DIGITS }

  function Joined(a: string, b: string, c: string, d: string, e: string): string {
    a + "-" + b + "-" + c + "-" + d + "-" + e
  }

  ghost predicate Groups(a: string, b: string, c: string, d: string, e: string) {
    && Hex(a, 8) && Hex(b, 4) && Hex(c, 4) && Hex(d, 4) && Hex(e, 12)
    && exists x <- a + b + c + d + e :: x != '0'
  }

  /** Five groups of 8, 4, 4, 4 and 12 digits, not all zero, joined by hyphens: exactly these are taken. */
  lemma UuidGroups(value: string)
    ensures ValidUuid(value) <==> exists a, b, c, d, e :: Groups(a, b, c, d, e) && value == Joined(a, b, c, d, e)
  {
    if ValidUuid(value) { UuidHasGroups(value); }
    forall a, b, c, d, e | Groups(a, b, c, d, e) && value == Joined(a, b, c, d, e) ensures ValidUuid(value) {
      GroupsAreUuid(a, b, c, d, e);
    }
  }

  lemma UuidHasGroups(value: string)
    requires ValidUuid(value)
    ensures Groups(value[..8], value[9..13], value[14..18], value[19..23], value[24..])
    ensures value == Joined(value[..8], value[9..13], value[14..18], value[19..23], value[24..])
  {
    var a, b, c, d, e := value[..8], value[9..13], value[14..18], value[19..23], value[24..];
    HexDigits();
    hide HexDigit;
    assert Hex(a, 8) && Hex(b, 4) && Hex(c, 4) && Hex(d, 4) && Hex(e, 12);
    assert value == Joined(a, b, c, d, e);
    var i :| 0 <= i < 36 && value[i] != '-' && value[i] != '0';
    assert value[i] in a + b + c + d + e;
  }

  lemma GroupsAreUuid(a: string, b: string, c: string, d: string, e: string)
    requires Groups(a, b, c, d, e)
    ensures ValidUuid(Joined(a, b, c, d, e))
  {
    HexDigits();
    hide HexDigit;
    var value := Joined(a, b, c, d, e);
    forall i | 0 <= i < 36 ensures if i in {8, 13, 18, 23} then value[i] == '-' else value[i] in DIGITS {
      JoinedAt(a, b, c, d, e, i);
    }
    var x :| x in a + b + c + d + e && x != '0';
    JoinedHolds(a, b, c, d, e, x);
    assert x in DIGITS && x != '-';
  }

  lemma JoinedAt(a: string, b: string, c: string, d: string, e: string, i: nat)
    requires |a| == 8 && |b| == |c| == |d| == 4 && |e| == 12 && i < 36
    ensures |Joined(a, b, c, d, e)| == 36
    ensures var x := Joined(a, b, c, d, e)[i];
            if i in {8, 13, 18, 23} then x == '-'
            else x in if i < 8 then a else if i < 13 then b else if i < 18 then c else if i < 23 then d else e
  {
  }

  lemma JoinedHolds(a: string, b: string, c: string, d: string, e: string, x: char)
    requires x in a + b + c + d + e
    ensures x in Joined(a, b, c, d, e)
  {
  }
}
