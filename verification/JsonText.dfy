/**
 The JSON grammar of RFC 8259, on bytes. A concrete tree keeps every blank, so that printing it gives back
 the exact text. Printing takes the bytes that follow as an argument.
 */
module JsonText {
  import opened Bytes
  import opened Options

  const QUOTE: byte := 0x22
  const BACKSLASH: byte := 0x5c
  const COMMA: byte := 0x2c
  const COLON: byte := 0x3a
  const OPEN_BRACE: byte := 0x7b
  const CLOSE_BRACE: byte := 0x7d
  const OPEN_BRACKET: byte := 0x5b
  const CLOSE_BRACKET: byte := 0x5d
  const FIRST_PRINTABLE: byte := 0x20
  const TRUE_WORD: Bytes := [0x74, 0x72, 0x75, 0x65]
  const FALSE_WORD: Bytes := [0x66, 0x61, 0x6c, 0x73, 0x65]
  const NULL_WORD: Bytes := [0x6e, 0x75, 0x6c, 0x6c]

  predicate IsBlank(b: byte) { b == 0x20 || b == 0x09 || b == 0x0d || b == 0x0a }

  ghost predicate Blanks(s: Bytes) { forall b <- s :: IsBlank(b) }

  predicate IsDigit(b: byte) { 0x30 <= b <= 0x39 }

  predicate IsHex(b: byte) { IsDigit(b) || 0x41 <= b <= 0x46 || 0x61 <= b <= 0x66 }

  /** One character of a string literal, as written. */
  datatype Unit = Plain(b: byte) | Escape(b: byte) | Unicode(h0: byte, h1: byte, h2: byte, h3: byte) {
    predicate WellFormed() {
      match this
      case Plain(b) => b >= FIRST_PRINTABLE && b != QUOTE && b != BACKSLASH
      // " \ / b f n r t
      case Escape(b) =>
        b == QUOTE || b == BACKSLASH || b == 0x2f || b == 0x62 || b == 0x66 || b == 0x6e || b == 0x72 || b == 0x74
      case Unicode(h0, h1, h2, h3) => IsHex(h0) && IsHex(h1) && IsHex(h2) && IsHex(h3)
    }

    function Print(rest: Bytes): Bytes {
      match this
      case Plain(b) => [b] + rest
      case Escape(b) => [BACKSLASH, b] + rest
      case Unicode(h0, h1, h2, h3) => [BACKSLASH, 0x75, h0, h1, h2, h3] + rest
    }
  }

  type Units = seq<Unit>

  /** The key of a member, with the blanks around its colon. */
  datatype Key = Key(units: Units, beforeColon: Bytes, afterColon: Bytes)

  /** One element or member, with the blanks around it. Members carry a key. */
  datatype Entry = Entry(before: Bytes, key: Option<Key>, value: Value, after: Bytes)

  /** `blank` is what an empty array or object contains. */
  datatype Value =
    | Word(text: Bytes)
    | Number(text: Bytes)
    | String(units: Units)
    | Nest(closing: byte, blank: Bytes, entries: seq<Entry>)

  // ---------------------------------------------------------------- well-formed trees

  function SkipDigits(s: Bytes): (rest: Bytes)
    ensures |rest| <= |s| && rest == s[|s| - |rest|..]
    ensures forall b <- s[..|s| - |rest|] :: IsDigit(b)
  {
    if s != [] && IsDigit(s[0]) then
      var rest := SkipDigits(s[1..]);
      assert s[..|s| - |rest|] == [s[0]] + s[1..][..|s| - 1 - |rest|];
      rest
    else s
  }

  /** At least one digit, then as many as there are. */
  function Digits(s: Bytes): Option<Bytes> {
    if s != [] && IsDigit(s[0]) then Some(SkipDigits(s)) else None
  }

  function Fraction(s: Bytes): Option<Bytes> {
    if s != [] && s[0] == 0x2e then Digits(s[1..]) else Some(s)
  }

  function Exponent(s: Bytes): Option<Bytes> {
    if s != [] && (s[0] == 0x65 || s[0] == 0x45)
    then Digits(if |s| > 1 && (s[1] == 0x2b || s[1] == 0x2d) then s[2..] else s[1..])
    else Some(s)
  }

  /** The number grammar, section 6 of RFC 8259. */
  predicate IsNumber(s: Bytes) { IsUnsigned(if s != [] && s[0] == 0x2d then s[1..] else s) }

  predicate IsUnsigned(s: Bytes) {
    if s == [] || !IsDigit(s[0]) then false
    else
      var fraction := Fraction(if s[0] == 0x30 then s[1..] else SkipDigits(s));
      fraction.Some? && Exponent(fraction.value) == Some([])
  }

  predicate UnitsWellFormed(units: Units) { forall u <- units :: u.WellFormed() }

  ghost predicate KeyWellFormed(key: Key) {
    UnitsWellFormed(key.units) && Blanks(key.beforeColon) && Blanks(key.afterColon)
  }

  ghost predicate WellFormed(v: Value) {
    match v
    case Word(text) => text == TRUE_WORD || text == FALSE_WORD || text == NULL_WORD
    case Number(text) => IsNumber(text)
    case String(units) => UnitsWellFormed(units)
    case Nest(closing, blank, entries) =>
      (closing == CLOSE_BRACE || closing == CLOSE_BRACKET) && Blanks(blank) && EntriesWellFormed(entries, closing)
  }

  ghost predicate EntryWellFormed(e: Entry, closing: byte) {
    && Blanks(e.before) && Blanks(e.after) && WellFormed(e.value)
    && (e.key.Some? <==> closing == CLOSE_BRACE)
    && (e.key.Some? ==> KeyWellFormed(e.key.value))
  }

  ghost predicate EntriesWellFormed(entries: seq<Entry>, closing: byte) {
    entries == [] || (EntryWellFormed(entries[0], closing) && EntriesWellFormed(entries[1..], closing))
  }

  // ---------------------------------------------------------------- printing

  function PrintUnits(units: Units, rest: Bytes): Bytes {
    if units == [] then rest else units[0].Print(PrintUnits(units[1..], rest))
  }

  function PrintString(units: Units, rest: Bytes): Bytes { [QUOTE] + PrintUnits(units, [QUOTE] + rest) }

  function PrintKey(key: Option<Key>, rest: Bytes): Bytes {
    match key
    case None => rest
    case Some(l) => PrintString(l.units, l.beforeColon + ([COLON] + (l.afterColon + rest)))
  }

  function Opening(closing: byte): byte { if closing == CLOSE_BRACE then OPEN_BRACE else OPEN_BRACKET }

  function PrintValue(v: Value, rest: Bytes): Bytes {
    match v
    case Word(text) => text + rest
    case Number(text) => text + rest
    case String(units) => PrintString(units, rest)
    case Nest(closing, blank, entries) => [Opening(closing)] + PrintBody(blank, entries, closing, rest)
  }

  function PrintEntry(e: Entry, rest: Bytes): Bytes {
    e.before + PrintKey(e.key, PrintValue(e.value, e.after + rest))
  }

  /** What stands between the brackets, and the closing one. */
  function PrintBody(blank: Bytes, entries: seq<Entry>, closing: byte, rest: Bytes): Bytes
    decreases entries
  {
    if entries == [] then blank + ([closing] + rest) else PrintEntry(entries[0], AfterFirst(entries, closing, rest))
  }

  function AfterFirst(entries: seq<Entry>, closing: byte, rest: Bytes): Bytes
    requires entries != []
    decreases entries, 0
  {
    if |entries| == 1 then [closing] + rest else [COMMA] + PrintBody([], entries[1..], closing, rest)
  }

  /** A JSON text: blanks, one value, blanks. */
  function PrintText(lead: Bytes, v: Value, trail: Bytes): Bytes { lead + PrintValue(v, trail) }

  ghost predicate IsText(s: Bytes, lead: Bytes, v: Value, trail: Bytes) {
    Blanks(lead) && WellFormed(v) && Blanks(trail) && s == PrintText(lead, v, trail)
  }

  ghost predicate ValidText(s: Bytes) { exists lead, v, trail :: IsText(s, lead, v, trail) }

  // ---------------------------------------------------------------- the characters of RFC 8259

  /** Bytes as the characters that they stand for in ASCII. */
  function Chars(s: Bytes): (text: string)
    ensures |text| == |s| && forall i :: 0 <= i < |s| ==> text[i] == s[i] as char
  {
    seq(|s|, i requires 0 <= i < |s| => s[i] as char)
  }

  /** Sections 2 and 3: the structural characters, the blanks and the three words. */
  lemma Structure()
    ensures Chars([OPEN_BRACKET, OPEN_BRACE, CLOSE_BRACKET, CLOSE_BRACE, COLON, COMMA]) == "[{]}:,"
    ensures Chars(TRUE_WORD) == "true" && Chars(FALSE_WORD) == "false" && Chars(NULL_WORD) == "null"
    ensures forall b: byte :: IsBlank(b) <==> b as char in {' ', '\t', '\n', '\r'}
    ensures Opening(CLOSE_BRACKET) == OPEN_BRACKET && Opening(CLOSE_BRACE) == OPEN_BRACE
  {
  }

  /** Section 7: what stands for one character of a string. */
  lemma Characters(b: byte, h0: byte, h1: byte, h2: byte, h3: byte)
    ensures Chars([QUOTE, BACKSLASH]) == "\"\\"
    ensures Plain(b).WellFormed() <==> b >= 0x20 && b as char !in {'"', '\\'}
    ensures Escape(b).WellFormed() <==> b as char in {'"', '\\', '/', 'b', 'f', 'n', 'r', 't'}
    ensures Unicode(h0, h1, h2, h3).WellFormed() <==> HexChar(h0) && HexChar(h1) && HexChar(h2) && HexChar(h3)
    ensures Plain(b).Print([]) == [b] && Chars(Escape(b).Print([])) == "\\" + Chars([b])
    ensures Chars(Unicode(h0, h1, h2, h3).Print([])) == "\\u" + Chars([h0, h1, h2, h3])
  {
  }

  predicate HexChar(b: byte) {
    '0' <= b as char <= '9' || 'A' <= b as char <= 'F' || 'a' <= b as char <= 'f'
  }

  /** Section 3: the three words, and everything else that is no container. */
  lemma ScalarsMean(text: Bytes, units: Units)
    ensures WellFormed(Word(text)) <==> Chars(text) in {"true", "false", "null"}
    ensures WellFormed(Number(text)) <==> IsNumber(text)
    ensures WellFormed(String(units)) <==> forall u <- units :: u.WellFormed()
    ensures forall rest :: PrintValue(Word(text), rest) == PrintValue(Number(text), rest) == text + rest
  {
    Structure();
    forall word | word in {TRUE_WORD, FALSE_WORD, NULL_WORD} && Chars(word) == Chars(text) ensures word == text {
      assert forall i :: 0 <= i < |text| ==> Chars(word)[i] == word[i] as char && Chars(text)[i] == text[i] as char;
    }
  }

  /** Sections 4 and 5: what a container may hold. Members have a key in an object, and none in an array. */
  lemma {:induction false} ContainersMean(closing: byte, blank: Bytes, entries: seq<Entry>)
    ensures WellFormed(Nest(closing, blank, entries)) <==>
              && closing as char in {']', '}'} && (forall b <- blank :: IsBlank(b))
              && forall e <- entries ::
                   && WellFormed(e.value) && (forall b <- e.before + e.after :: IsBlank(b))
                   && match e.key
                      case None => closing as char == ']'
                      case Some(key) =>
                        && closing as char == '}' && (forall u <- key.units :: u.WellFormed())
                        && forall b <- key.beforeColon + key.afterColon :: IsBlank(b)
  {
    AllEntries(closing, entries);
  }

  lemma {:induction false} AllEntries(closing: byte, entries: seq<Entry>)
    ensures EntriesWellFormed(entries, closing) <==> forall e <- entries :: EntryWellFormed(e, closing)
  {
    if entries == [] {
      assert forall e <- entries :: EntryWellFormed(e, closing);
    } else {
      AllEntries(closing, entries[1..]);
      assert entries == [entries[0]] + entries[1..];
      assert entries[0] in entries && forall e <- entries[1..] :: e in entries;
      assert forall e <- entries :: e == entries[0] || e in entries[1..];
    }
  }

  /** How containers are written: opened, their entries joined by commas, and closed, every blank in its place. */
  lemma ContainersPrinted(closing: byte, blank: Bytes, e: Entry, more: seq<Entry>, rest: Bytes)
    ensures PrintValue(Nest(closing, blank, []), rest) == [Opening(closing)] + (blank + ([closing] + rest))
    ensures PrintValue(Nest(closing, blank, [e]), rest) == [Opening(closing)] + PrintEntry(e, [closing] + rest)
    ensures more != [] ==> PrintBody(blank, [e] + more, closing, rest)
                           == PrintEntry(e, [COMMA] + PrintBody([], more, closing, rest))
    ensures PrintEntry(e, rest) == match e.key
                                   case None => e.before + PrintValue(e.value, e.after + rest)
                                   case Some(key) =>
                                     e.before + PrintString(key.units, key.beforeColon + ([COLON]
                                       + (key.afterColon + PrintValue(e.value, e.after + rest))))
  {
    assert ([e] + more)[1..] == more;
    assert AfterFirst([e], closing, rest) == [closing] + rest;
    assert PrintBody(blank, [e], closing, rest) == PrintEntry([e][0], AfterFirst([e], closing, rest));
  }

  /** How strings are written: their characters one after the other, between quotes. */
  lemma StringsPrinted(u: Unit, units: Units, rest: Bytes)
    ensures PrintString([], rest) == [QUOTE] + ([QUOTE] + rest)
    ensures PrintString([u] + units, rest) == [QUOTE] + u.Print(PrintUnits(units, [QUOTE] + rest))
    ensures PrintUnits([u] + units, rest) == u.Print(PrintUnits(units, rest)) && PrintUnits([], rest) == rest
  {
    assert ([u] + units)[1..] == units;
  }

  /** Section 6: the parts of a number. */
  predicate AllDigits(s: Bytes) { s != [] && forall b <- s :: 0x30 <= b <= 0x39 }

  predicate IsInteger(s: Bytes) { AllDigits(s) && (s[0] == 0x30 ==> |s| == 1) }

  predicate IsFraction(s: Bytes) { s == [] || (s[0] == 0x2e && AllDigits(s[1..])) }

  predicate IsExponent(s: Bytes) {
    s == [] || ((s[0] == 0x65 || s[0] == 0x45)
                && (AllDigits(s[1..]) || (|s| > 1 && (s[1] == 0x2b || s[1] == 0x2d) && AllDigits(s[2..]))))
  }

  predicate IsParts(minus: Bytes, whole: Bytes, fraction: Bytes, exponent: Bytes) {
    (minus == [] || minus == [0x2d]) && IsInteger(whole) && IsFraction(fraction) && IsExponent(exponent)
  }

  lemma {:induction false} DigitsSkipped(s: Bytes)
    ensures SkipDigits(s) == [] || !IsDigit(SkipDigits(s)[0])
  {
    if s != [] && IsDigit(s[0]) { DigitsSkipped(s[1..]); }
  }

  lemma {:induction false} DigitsThen(digits: Bytes, rest: Bytes)
    requires (forall b <- digits :: IsDigit(b)) && (rest == [] || !IsDigit(rest[0]))
    ensures SkipDigits(digits + rest) == rest
  {
    if digits == [] {
      assert digits + rest == rest;
    } else {
      assert (digits + rest)[1..] == digits[1..] + rest;
      DigitsThen(digits[1..], rest);
    }
  }

  /** A number is a minus or nothing, digits without a leading zero, and perhaps a fraction and an exponent. */
  lemma NumberGrammar(s: Bytes)
    ensures IsNumber(s) <==> exists minus, whole, fraction, exponent ::
                               IsParts(minus, whole, fraction, exponent) && s == minus + whole + fraction + exponent
  {
    if IsNumber(s) { NumberHasParts(s); }
    forall minus, whole, fraction, exponent
      | IsParts(minus, whole, fraction, exponent) && s == minus + whole + fraction + exponent ensures IsNumber(s)
    {
      PartsAreNumber(minus, whole, fraction, exponent);
    }
  }

  lemma NumberHasParts(s: Bytes)
    requires IsNumber(s)
    ensures exists minus, whole, fraction, exponent ::
              IsParts(minus, whole, fraction, exponent) && s == minus + whole + fraction + exponent
  {
    hide IsUnsigned, IsInteger, IsFraction, IsExponent;
    var minus: Bytes := if s != [] && s[0] == 0x2d then [0x2d] else [];
    var whole, fraction, exponent := UnsignedParts(if s != [] && s[0] == 0x2d then s[1..] else s);
    assert s == minus + (whole + fraction + exponent);
    Regroup(whole, fraction, exponent);
    Regroup(minus, whole, fraction + exponent);
    Regroup(minus + whole, fraction, exponent);
    Together(s, minus, whole, fraction, exponent);
  }

  lemma UnsignedParts(s: Bytes) returns (whole: Bytes, fraction: Bytes, exponent: Bytes)
    requires IsUnsigned(s)
    ensures IsInteger(whole) && IsFraction(fraction) && IsExponent(exponent) && s == whole + fraction + exponent
  {
    hide SkipDigits, Fraction, Exponent, IsInteger, IsFraction, IsExponent;
    var behind;
    whole, behind := WholePart(s);
    fraction, exponent := FractionPart(behind);
    ExponentPart(exponent);
    Regroup(whole, fraction, exponent);
  }

  lemma Together(s: Bytes, minus: Bytes, whole: Bytes, fraction: Bytes, exponent: Bytes)
    requires IsParts(minus, whole, fraction, exponent) && s == minus + whole + fraction + exponent
    ensures exists a, b, c, d :: IsParts(a, b, c, d) && s == a + b + c + d
  {
  }

  lemma DigitsPart(s: Bytes) returns (digits: Bytes)
    requires s != [] && IsDigit(s[0])
    ensures s == digits + SkipDigits(s) && AllDigits(digits) && digits[0] == s[0]
  {
    var rest := SkipDigits(s);
    digits := s[..|s| - |rest|];
    assert rest == SkipDigits(s[1..]) && |rest| < |s|;
    assert s == digits + s[|s| - |rest|..];
    assert forall b <- digits :: IsDigit(b);
  }

  lemma WholePart(s: Bytes) returns (whole: Bytes, behind: Bytes)
    requires s != [] && IsDigit(s[0])
    ensures behind == (if s[0] == 0x30 then s[1..] else SkipDigits(s)) && s == whole + behind && IsInteger(whole)
  {
    if s[0] == 0x30 {
      whole, behind := [s[0]], s[1..];
    } else {
      behind := SkipDigits(s);
      whole := DigitsPart(s);
    }
  }

  lemma FractionPart(s: Bytes) returns (fraction: Bytes, behind: Bytes)
    requires Fraction(s).Some?
    ensures behind == Fraction(s).value && s == fraction + behind && IsFraction(fraction)
  {
    hide SkipDigits, AllDigits;
    behind := Fraction(s).value;
    if s != [] && s[0] == 0x2e {
      var digits := DigitsPart(s[1..]);
      fraction := [s[0]] + digits;
      Regroup([s[0]], digits, behind);
      assert fraction[1..] == digits && s == [s[0]] + s[1..];
    } else {
      fraction := [];
      assert s == [] + behind;
    }
  }

  lemma ExponentPart(s: Bytes)
    requires Exponent(s) == Some([])
    ensures IsExponent(s)
  {
    if s != [] {
      var rest := if |s| > 1 && (s[1] == 0x2b || s[1] == 0x2d) then s[2..] else s[1..];
      var digits := DigitsPart(rest);
      assert digits + [] == digits;
    }
  }

  lemma PartsAreNumber(minus: Bytes, whole: Bytes, fraction: Bytes, exponent: Bytes)
    requires IsParts(minus, whole, fraction, exponent)
    ensures IsNumber(minus + whole + fraction + exponent)
  {
    hide IsUnsigned, IsFraction, IsExponent;
    var unsigned := whole + (fraction + exponent);
    UnsignedRead(whole, fraction, exponent);
    Regroup(minus + whole, fraction, exponent);
    Regroup(minus, whole, fraction + exponent);
    assert minus + whole + fraction + exponent == minus + unsigned && unsigned[0] == whole[0] && whole[0] in whole;
    if minus == [] { assert [] + unsigned == unsigned; } else { assert (minus + unsigned)[1..] == unsigned; }
  }

  lemma Regroup(a: Bytes, b: Bytes, c: Bytes)
    ensures a + b + c == a + (b + c)
  {
  }

  lemma UnsignedRead(whole: Bytes, fraction: Bytes, exponent: Bytes)
    requires IsInteger(whole) && IsFraction(fraction) && IsExponent(exponent)
    ensures IsUnsigned(whole + (fraction + exponent))
  {
    hide IsInteger, IsFraction, IsExponent, Fraction, Exponent, SkipDigits;
    BehindDigits(fraction, exponent);
    WholeRead(whole, fraction + exponent);
    FractionRead(fraction, exponent);
    ExponentRead(exponent);
  }

  lemma WholeRead(whole: Bytes, behind: Bytes)
    requires IsInteger(whole) && (behind == [] || !IsDigit(behind[0]))
    ensures var s := whole + behind;
            s != [] && IsDigit(s[0]) && (if s[0] == 0x30 then s[1..] else SkipDigits(s)) == behind
  {
    var s := whole + behind;
    assert s[0] == whole[0] && whole[0] in whole;
    if whole[0] == 0x30 { assert s[1..] == behind; } else { DigitsThen(whole, behind); }
  }

  lemma BehindDigits(fraction: Bytes, exponent: Bytes)
    requires IsFraction(fraction) && IsExponent(exponent)
    ensures var behind := fraction + exponent; behind == [] || !IsDigit(behind[0])
  {
  }

  lemma FractionRead(fraction: Bytes, exponent: Bytes)
    requires IsFraction(fraction) && IsExponent(exponent)
    ensures Fraction(fraction + exponent) == Some(exponent)
  {
    hide IsExponent, SkipDigits;
    if fraction == [] {
      ExponentStart(exponent);
      assert fraction + exponent == exponent;
    } else {
      var digits := fraction[1..];
      assert (fraction + exponent)[1..] == digits + exponent && (digits + exponent)[0] == digits[0];
      assert digits[0] in digits;
      BehindDigits([], exponent);
      assert [] + exponent == exponent;
      DigitsThen(digits, exponent);
    }
  }

  lemma ExponentStart(exponent: Bytes)
    requires IsExponent(exponent)
    ensures exponent == [] || exponent[0] != 0x2e
  {
  }

  lemma ExponentRead(exponent: Bytes)
    requires IsExponent(exponent)
    ensures Exponent(exponent) == Some([])
  {
    if exponent != [] {
      var signed := |exponent| > 1 && (exponent[1] == 0x2b || exponent[1] == 0x2d);
      var digits := if signed then exponent[2..] else exponent[1..];
      assert signed ==> !AllDigits(exponent[1..]) by {
        if signed { assert exponent[1..][0] in exponent[1..] && !IsDigit(exponent[1..][0]); }
      }
      assert digits[0] in digits && digits + [] == digits;
      DigitsThen(digits, []);
    }
  }

  // ---------------------------------------------------------------- what follows is only appended

  lemma {:induction false} UnitsAppend(units: Units, rest: Bytes, more: Bytes)
    ensures PrintUnits(units, rest + more) == PrintUnits(units, rest) + more
  {
    if units != [] { UnitsAppend(units[1..], rest, more); }
  }

  lemma StringAppend(units: Units, rest: Bytes, more: Bytes)
    ensures PrintString(units, rest + more) == PrintString(units, rest) + more
  {
    assert [QUOTE] + (rest + more) == ([QUOTE] + rest) + more;
    UnitsAppend(units, [QUOTE] + rest, more);
  }

  lemma KeyAppend(key: Option<Key>, rest: Bytes, more: Bytes)
    ensures PrintKey(key, rest + more) == PrintKey(key, rest) + more
  {
    if key.Some? {
      var l := key.value;
      var inner := l.beforeColon + ([COLON] + (l.afterColon + rest));
      assert l.beforeColon + ([COLON] + (l.afterColon + (rest + more))) == inner + more;
      StringAppend(l.units, inner, more);
    }
  }

  lemma {:induction false} ValueAppend(v: Value, rest: Bytes, more: Bytes)
    ensures PrintValue(v, rest + more) == PrintValue(v, rest) + more
  {
    match v
    case Word(_) =>
    case Number(_) =>
    case String(units) => StringAppend(units, rest, more);
    case Nest(closing, blank, entries) => BodyAppend(blank, entries, closing, rest, more);
  }

  lemma {:induction false} EntryAppend(e: Entry, rest: Bytes, more: Bytes)
    ensures PrintEntry(e, rest + more) == PrintEntry(e, rest) + more
  {
    assert e.after + (rest + more) == (e.after + rest) + more;
    ValueAppend(e.value, e.after + rest, more);
    KeyAppend(e.key, PrintValue(e.value, e.after + rest), more);
  }

  lemma {:induction false} BodyAppend(blank: Bytes, entries: seq<Entry>, closing: byte, rest: Bytes, more: Bytes)
    ensures PrintBody(blank, entries, closing, rest + more) == PrintBody(blank, entries, closing, rest) + more
    decreases entries
  {
    if entries == [] {
      assert blank + ([closing] + (rest + more)) == blank + ([closing] + rest) + more;
    } else {
      AfterFirstAppend(entries, closing, rest, more);
      EntryAppend(entries[0], AfterFirst(entries, closing, rest), more);
    }
  }

  lemma {:induction false} AfterFirstAppend(entries: seq<Entry>, closing: byte, rest: Bytes, more: Bytes)
    requires entries != []
    ensures AfterFirst(entries, closing, rest + more) == AfterFirst(entries, closing, rest) + more
    decreases entries, 0
  {
    if |entries| == 1 {
      assert [closing] + (rest + more) == [closing] + rest + more;
    } else {
      BodyAppend([], entries[1..], closing, rest, more);
      assert [COMMA] + (PrintBody([], entries[1..], closing, rest) + more)
          == [COMMA] + PrintBody([], entries[1..], closing, rest) + more;
    }
  }

  // ---------------------------------------------------------------- numbers

  predicate IsNumberByte(b: byte) { IsDigit(b) || b == 0x2d || b == 0x2b || b == 0x2e || b == 0x65 || b == 0x45 }

  ghost predicate NumberBytes(s: Bytes) { forall b <- s :: IsNumberByte(b) }

  lemma OnlyNumberBytes(s: Bytes)
    requires IsNumber(s)
    ensures s != [] && (IsDigit(s[0]) || s[0] == 0x2d) && NumberBytes(s)
  {
    var unsigned := if s[0] == 0x2d then s[1..] else s;
    var whole := if unsigned[0] == 0x30 then unsigned[1..] else SkipDigits(unsigned);
    assert NumberBytes(whole) by {
      ExponentBytes(Fraction(whole).value);
      FractionBytes(whole);
    }
    assert NumberBytes(unsigned) by {
      if unsigned[0] == 0x30 { OneMoreByte(unsigned); } else { DigitBytes(unsigned); }
    }
    OneMoreByte(s);
  }

  lemma OneMoreByte(s: Bytes)
    requires s != [] && IsNumberByte(s[0]) && NumberBytes(s[1..])
    ensures NumberBytes(s)
  {
    assert s == [s[0]] + s[1..];
  }

  lemma {:induction false} DigitBytes(s: Bytes)
    requires NumberBytes(SkipDigits(s))
    ensures NumberBytes(s)
  {
    if s != [] && IsDigit(s[0]) {
      DigitBytes(s[1..]);
      OneMoreByte(s);
    }
  }

  lemma FractionBytes(s: Bytes)
    requires Fraction(s).Some? && NumberBytes(Fraction(s).value)
    ensures NumberBytes(s)
  {
    if s != [] && s[0] == 0x2e {
      DigitBytes(s[1..]);
      OneMoreByte(s);
    }
  }

  lemma ExponentBytes(s: Bytes)
    requires Exponent(s) == Some([])
    ensures NumberBytes(s)
  {
    if s != [] {
      if |s| > 1 && (s[1] == 0x2b || s[1] == 0x2d) {
        DigitBytes(s[2..]);
        assert s[1..][1..] == s[2..];
        OneMoreByte(s[1..]);
      } else {
        DigitBytes(s[1..]);
      }
      OneMoreByte(s);
    }
  }
}
