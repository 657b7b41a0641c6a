/**
 The byte scanner that drops one member from a JSON object in place. Each scanner is first a function from
 the bytes ahead to the bytes left behind the value; the loops over an index are proved against these.
 */
module JsonScan {
  import opened Bytes
  import opened JsonText
  import opened Options

  /** The JSON library: its validity test, and how it decodes a string literal. */
  datatype Library = Library(valid: Bytes -> bool, decode: Bytes -> Option<string>) {
    /** It accepts only JSON, it accepts every number, and it decodes every literal it is given. */
    ghost predicate Faithful() {
      && (forall s :: valid(s) ==> ValidText(s))
      && AcceptsNumbers()
      && (forall units :: UnitsWellFormed(units) ==> decode(PrintString(units, [])).Some?)
    }

    ghost predicate AcceptsNumbers() { forall s :: IsNumber(s) ==> valid(s) }
  }

  /** One scanned member, by positions in the text. */
  datatype Slot = Slot(key: string, leadingStart: nat, valueEnd: nat, commaStart: Option<nat>)

  // ---------------------------------------------------------------- the scanners as functions

  function SkipBlanks(s: Bytes): (rest: Bytes)
    ensures |rest| <= |s|
  {
    if s != [] && IsBlank(s[0]) then SkipBlanks(s[1..]) else s
  }

  /** Inside a string literal, up to and over its closing quote. */
  function UnitsRest(s: Bytes): (rest: Option<Bytes>)
    ensures rest.Some? ==> |rest.value| < |s|
  {
    if s == [] then None
    else if s[0] == BACKSLASH then (if |s| < 2 then None else UnitsRest(s[2..]))
    else if s[0] == QUOTE then Some(s[1..])
    else if s[0] < FIRST_PRINTABLE then None
    else UnitsRest(s[1..])
  }

  function StringRest(s: Bytes): (rest: Option<Bytes>)
    ensures rest.Some? ==> |rest.value| < |s|
  {
    if s == [] || s[0] != QUOTE then None else UnitsRest(s[1..])
  }

  predicate IsDelimiter(b: byte) { IsBlank(b) || b == COMMA || b == CLOSE_BRACKET || b == CLOSE_BRACE }

  function TokenLength(s: Bytes): (length: nat)
    ensures length <= |s|
  {
    if s == [] || IsDelimiter(s[0]) then 0 else 1 + TokenLength(s[1..])
  }

  function WordRest(s: Bytes, word: Bytes): (rest: Option<Bytes>)
    ensures rest.Some? ==> |rest.value| + |word| == |s|
  {
    if word <= s then Some(s[|word|..]) else None
  }

  /** A key and its colon, up to the value. */
  function KeyRest(s: Bytes): (rest: Option<Bytes>)
    ensures rest.Some? ==> |rest.value| < |s|
  {
    var afterKey := StringRest(s);
    if afterKey.None? then None
    else
      var colon := SkipBlanks(afterKey.value);
      if colon == [] || colon[0] != COLON then None else Some(SkipBlanks(colon[1..]))
  }

  function ValueRest(lib: Library, s: Bytes): (rest: Option<Bytes>)
    ensures rest.Some? ==> |rest.value| < |s|
    decreases |s|, 0
  {
    if s == [] then None
    else if s[0] == QUOTE then StringRest(s)
    else if s[0] == OPEN_BRACE then ContainerRest(lib, s[1..], CLOSE_BRACE)
    else if s[0] == OPEN_BRACKET then ContainerRest(lib, s[1..], CLOSE_BRACKET)
    else if s[0] == TRUE_WORD[0] then WordRest(s, TRUE_WORD)
    else if s[0] == FALSE_WORD[0] then WordRest(s, FALSE_WORD)
    else if s[0] == NULL_WORD[0] then WordRest(s, NULL_WORD)
    else
      var length := TokenLength(s);
      if length == 0 || !lib.valid(s[..length]) then None else Some(s[length..])
  }

  /** One element or member, up to the comma or bracket behind it. */
  function EntryRest(lib: Library, s: Bytes, closing: byte): (rest: Option<Bytes>)
    ensures rest.Some? ==> |rest.value| < |s|
    decreases |s|, 1
  {
    var value := if closing == CLOSE_BRACE then KeyRest(s) else Some(s);
    if value.None? then None
    else
      var afterValue := ValueRest(lib, value.value);
      if afterValue.None? then None else Some(SkipBlanks(afterValue.value))
  }

  function ContainerRest(lib: Library, s: Bytes, closing: byte): (rest: Option<Bytes>)
    ensures rest.Some? ==> |rest.value| < |s|
    decreases |s|, 2
  {
    var start := SkipBlanks(s);
    if start == [] then None
    else if start[0] == closing then Some(start[1..])
    else
      var next := EntryRest(lib, start, closing);
      if next.None? || next.value == [] then None
      else if next.value[0] == COMMA then ContainerRest(lib, next.value[1..], closing)
      else if next.value[0] == closing then Some(next.value[1..])
      else None
  }

  /** A decoded key, and what lies behind the value. */
  function MemberAhead(lib: Library, s: Bytes): (member: Option<(string, Bytes)>)
    ensures member.Some? ==> |member.value.1| < |s|
  {
    var afterKey, value := StringRest(s), KeyRest(s);
    if value.None? then None
    else
      var key := lib.decode(s[..|s| - |afterKey.value|]);
      var afterValue := ValueRest(lib, value.value);
      if key.None? || afterValue.None? then None else Some((key.value, afterValue.value))
  }

  /** The members of the top-level object, from just behind its brace or a comma. `total` is the whole length. */
  function SlotsFrom(lib: Library, total: nat, s: Bytes): (slots: Option<seq<Slot>>)
    requires |s| <= total
    decreases |s|
  {
    var start := SkipBlanks(s);
    if start == [] then None
    else if start[0] == CLOSE_BRACE then (if SkipBlanks(start[1..]) == [] then Some([]) else None)
    else
      var member := MemberAhead(lib, start);
      if member.None? then None else SlotsBehind(lib, total, total - |s|, member.value.0, member.value.1)
  }

  /** The same from behind the value of one member. */
  function SlotsBehind(lib: Library, total: nat, leading: nat, key: string, s: Bytes): (slots: Option<seq<Slot>>)
    requires |s| <= total
    decreases |s|
  {
    var next := SkipBlanks(s);
    if next == [] then None
    else if next[0] == COMMA then
      var ahead := SkipBlanks(next[1..]);
      if ahead == [] || ahead[0] == CLOSE_BRACE then None
      else
        var rest := SlotsFrom(lib, total, next[1..]);
        if rest.None? then None else Some([Slot(key, leading, total - |s|, Some(total - |next|))] + rest.value)
    else if next[0] != CLOSE_BRACE || SkipBlanks(next[1..]) != [] then None
    else Some([Slot(key, leading, total - |s|, None)])
  }

  function ObjectSlots(lib: Library, raw: Bytes): Option<seq<Slot>> {
    var start := SkipBlanks(raw);
    if start == [] || start[0] != OPEN_BRACE then None else SlotsFrom(lib, |raw|, start[1..])
  }

  // ---------------------------------------------------------------- printed text is scanned to its end

  lemma {:induction false} BlanksSkipped(blanks: Bytes, rest: Bytes)
    requires Blanks(blanks) && (rest == [] || !IsBlank(rest[0]))
    ensures SkipBlanks(blanks + rest) == rest
  {
    if blanks == [] {
      assert blanks + rest == rest;
    } else {
      assert (blanks + rest)[1..] == blanks[1..] + rest;
      BlanksSkipped(blanks[1..], rest);
    }
  }

  lemma {:induction false} UnitsScanned(units: Units, rest: Bytes)
    requires UnitsWellFormed(units)
    ensures UnitsRest(PrintUnits(units, [QUOTE] + rest)) == Some(rest)
  {
    if units == [] {
      assert ([QUOTE] + rest)[1..] == rest;
    } else {
      UnitsScanned(units[1..], rest);
      UnitScanned(units[0], PrintUnits(units[1..], [QUOTE] + rest));
    }
  }

  lemma UnitScanned(unit: Unit, rest: Bytes)
    requires unit.WellFormed()
    ensures UnitsRest(unit.Print(rest)) == UnitsRest(rest)
  {
    match unit
    case Plain(b) => PlainScanned(b, rest);
    case Escape(b) => assert ([BACKSLASH, b] + rest)[2..] == rest;
    case Unicode(h0, h1, h2, h3) =>
      assert unit.Print(rest)[2..] == [h0] + ([h1] + ([h2] + ([h3] + rest)));
      PlainScanned(h0, [h1] + ([h2] + ([h3] + rest)));
      PlainScanned(h1, [h2] + ([h3] + rest));
      PlainScanned(h2, [h3] + rest);
      PlainScanned(h3, rest);
  }

  lemma PlainScanned(b: byte, rest: Bytes)
    requires Plain(b).WellFormed()
    ensures UnitsRest([b] + rest) == UnitsRest(rest)
  {
    assert ([b] + rest)[1..] == rest;
  }

  lemma StringScanned(units: Units, rest: Bytes)
    requires UnitsWellFormed(units)
    ensures StringRest(PrintString(units, rest)) == Some(rest)
  {
    UnitsScanned(units, rest);
    assert PrintString(units, rest)[1..] == PrintUnits(units, [QUOTE] + rest);
  }

  lemma KeyScanned(key: Key, rest: Bytes)
    requires KeyWellFormed(key) && (rest == [] || !IsBlank(rest[0]))
    ensures KeyRest(PrintKey(Some(key), rest)) == Some(rest)
    ensures StringRest(PrintKey(Some(key), rest)) == Some(key.beforeColon + ([COLON] + (key.afterColon + rest)))
  {
    var colon := [COLON] + (key.afterColon + rest);
    StringScanned(key.units, key.beforeColon + colon);
    BlanksSkipped(key.beforeColon, colon);
    assert colon[1..] == key.afterColon + rest;
    BlanksSkipped(key.afterColon, rest);
  }

  /** A number ends at the first delimiter. */
  lemma {:induction false} TokenOf(text: Bytes, rest: Bytes)
    requires NumberBytes(text) && (rest == [] || IsDelimiter(rest[0]))
    ensures TokenLength(text + rest) == |text|
  {
    if text == [] {
      assert text + rest == rest;
    } else {
      assert (text + rest)[1..] == text[1..] + rest && (text + rest)[0] == text[0];
      assert IsNumberByte(text[0]);
      TokenOf(text[1..], rest);
    }
  }

  /** What may follow a value: nothing, or a delimiter. */
  ghost predicate Follows(rest: Bytes) { rest == [] || IsDelimiter(rest[0]) }

  lemma NumberStarts(text: Bytes, rest: Bytes)
    requires IsNumber(text)
    ensures text != [] && NumberBytes(text) && (text + rest)[0] == text[0] && IsNumberByte(text[0])
  {
    OnlyNumberBytes(text);
  }

  /** A value starts with a byte that tells its kind. */
  lemma {:induction false} FirstByte(v: Value, rest: Bytes)
    requires WellFormed(v)
    ensures PrintValue(v, rest) != [] && !IsDelimiter(PrintValue(v, rest)[0])
    ensures v.Number? ==> IsNumberByte(PrintValue(v, rest)[0])
  {
    match v
    case Word(text) => WordStarts(text, rest);
    case Number(text) => NumberStarts(text, rest);
    case String(_) =>
    case Nest(_, _, _) =>
  }

  lemma WordStarts(text: Bytes, rest: Bytes)
    requires WellFormed(Word(text))
    ensures text + rest != [] && !IsDelimiter((text + rest)[0])
  {
    assert (text + rest)[0] == text[0];
  }

  lemma BlanksFollow(blanks: Bytes, rest: Bytes)
    requires Blanks(blanks) && Follows(rest)
    ensures Follows(blanks + rest)
  {
    if blanks == [] { assert blanks + rest == rest; }
  }

  lemma WordScanned(lib: Library, text: Bytes, rest: Bytes)
    requires WellFormed(Word(text))
    ensures ValueRest(lib, text + rest) == Some(rest)
  {
    assert text <= text + rest && (text + rest)[|text|..] == rest && (text + rest)[0] == text[0];
  }

  lemma NumberScanned(lib: Library, text: Bytes, rest: Bytes)
    requires lib.AcceptsNumbers() && IsNumber(text) && Follows(rest)
    ensures ValueRest(lib, text + rest) == Some(rest)
  {
    NumberStarts(text, rest);
    TokenScanned(lib, text, rest);
  }

  lemma TokenScanned(lib: Library, text: Bytes, rest: Bytes)
    requires lib.valid(text) && Follows(rest)
    requires text != [] && NumberBytes(text) && IsNumberByte(text[0])
    ensures ValueRest(lib, text + rest) == Some(rest)
  {
    TokenOf(text, rest);
    assert (text + rest)[0] == text[0] && (text + rest)[..|text|] == text && (text + rest)[|text|..] == rest;
  }

  /** The scanner stops exactly at the end of every value, however deep. */
  lemma {:induction false} ValueScanned(lib: Library, v: Value, rest: Bytes)
    requires lib.AcceptsNumbers() && WellFormed(v) && Follows(rest)
    ensures ValueRest(lib, PrintValue(v, rest)) == Some(rest)
    decreases v
  {
    match v
    case Word(text) => WordScanned(lib, text, rest);
    case Number(text) => NumberScanned(lib, text, rest);
    case String(units) => StringScanned(units, rest);
    case Nest(closing, blank, entries) =>
      assert PrintValue(v, rest)[1..] == PrintBody(blank, entries, closing, rest);
      BodyScanned(lib, blank, entries, closing, rest);
  }

  lemma {:induction false} BodyScanned(lib: Library, blank: Bytes, entries: seq<Entry>, closing: byte, rest: Bytes)
    requires lib.AcceptsNumbers() && (closing == CLOSE_BRACE || closing == CLOSE_BRACKET)
    requires Blanks(blank) && EntriesWellFormed(entries, closing)
    ensures ContainerRest(lib, PrintBody(blank, entries, closing, rest), closing) == Some(rest)
    decreases entries
  {
    if entries == [] {
      BlanksSkipped(blank, [closing] + rest);
      assert ([closing] + rest)[1..] == rest;
    } else {
      var tail := AfterFirst(entries, closing, rest);
      EntryScanned(lib, entries[0], closing, tail);
      if |entries| > 1 {
        BodyScanned(lib, [], entries[1..], closing, rest);
        assert tail[1..] == PrintBody([], entries[1..], closing, rest);
      } else {
        assert tail[1..] == rest;
      }
      ContainerStep(lib, PrintEntry(entries[0], tail), closing, tail);
    }
  }

  lemma ContainerStep(lib: Library, s: Bytes, closing: byte, tail: Bytes)
    requires closing != COMMA && SkipBlanks(s) != [] && SkipBlanks(s)[0] != closing
    requires EntryRest(lib, SkipBlanks(s), closing) == Some(tail) && tail != []
             && (tail[0] == COMMA || tail[0] == closing)
    ensures ContainerRest(lib, s, closing)
            == if tail[0] == COMMA then ContainerRest(lib, tail[1..], closing) else Some(tail[1..])
  {
  }

  /** Where the scan of one entry stands: at its start, at its value, behind it, and at what comes next. */
  lemma {:induction false} EntryScanned(lib: Library, e: Entry, closing: byte, tail: Bytes)
    requires lib.AcceptsNumbers() && (closing == CLOSE_BRACE || closing == CLOSE_BRACKET)
    requires EntryWellFormed(e, closing) && tail != [] && (tail[0] == COMMA || tail[0] == closing)
    ensures var start := SkipBlanks(PrintEntry(e, tail));
            var value := PrintValue(e.value, e.after + tail);
            && start == PrintKey(e.key, value) && start != [] && start[0] != closing && !IsBlank(start[0])
            && (closing == CLOSE_BRACE ==> KeyRest(start) == Some(value) && start[0] == QUOTE)
            && ValueRest(lib, value) == Some(e.after + tail) && EntryRest(lib, start, closing) == Some(tail)
            && SkipBlanks(e.after + tail) == tail
    decreases e
  {
    var value := PrintValue(e.value, e.after + tail);
    BlanksFollow(e.after, tail);
    BlanksSkipped(e.after, tail);
    ValueScanned(lib, e.value, e.after + tail);
    FirstByte(e.value, e.after + tail);
    if closing == CLOSE_BRACE { KeyScanned(e.key.value, value); }
    BlanksSkipped(e.before, PrintKey(e.key, value));
  }

  // ---------------------------------------------------------------- the members of an object

  function KeyName(lib: Library, e: Entry): string {
    if e.key.None? then ""
    else
      var name := lib.decode(PrintString(e.key.value.units, []));
      if name.None? then "" else name.value
  }

  function Names(lib: Library, entries: seq<Entry>): (names: seq<string>)
    ensures |names| == |entries|
  {
    if entries == [] then [] else [KeyName(lib, entries[0])] + Names(lib, entries[1..])
  }

  /** The slots of a printed object, read off its tree. */
  function SlotsOf(lib: Library, total: nat, blank: Bytes, entries: seq<Entry>, trail: Bytes): (slots: seq<Slot>)
    requires |PrintBody(blank, entries, CLOSE_BRACE, trail)| <= total
    ensures |slots| == |entries|
    decreases entries
  {
    if entries == [] then []
    else
      var e, tail := entries[0], AfterFirst(entries, CLOSE_BRACE, trail);
      EntryLengths(e, tail);
      var leading, end := total - |PrintBody(blank, entries, CLOSE_BRACE, trail)|, total - |e.after + tail|;
      if |entries| == 1 then [Slot(KeyName(lib, e), leading, end, None)]
      else [Slot(KeyName(lib, e), leading, end, Some(total - |tail|))] + SlotsOf(lib, total, [], entries[1..], trail)
  }

  lemma EntryLengths(e: Entry, tail: Bytes)
    ensures |PrintEntry(e, tail)| >= |e.after + tail|
  {
    EntryAppend(e, [], tail);
    assert [] + tail == tail;
    var value := PrintValue(e.value, e.after + tail);
    ValueAppend(e.value, [], e.after + tail);
    assert [] + (e.after + tail) == e.after + tail;
    KeyAppend(e.key, [], value);
    assert [] + value == value;
  }

  lemma KeySlice(key: Key, value: Bytes)
    ensures var start := PrintKey(Some(key), value);
            var afterKey := key.beforeColon + ([COLON] + (key.afterColon + value));
            |afterKey| <= |start| && start[..|start| - |afterKey|] == PrintString(key.units, [])
  {
    var afterKey := key.beforeColon + ([COLON] + (key.afterColon + value));
    StringAppend(key.units, [], afterKey);
    assert [] + afterKey == afterKey;
  }

  ghost predicate DecodesKey(lib: Library, e: Entry) {
    e.key.Some? ==> lib.decode(PrintString(e.key.value.units, [])).Some?
  }

  ghost predicate DecodesKeys(lib: Library, entries: seq<Entry>) {
    entries == [] || (DecodesKey(lib, entries[0]) && DecodesKeys(lib, entries[1..]))
  }

  lemma {:induction false} FaithfulDecodes(lib: Library, entries: seq<Entry>, closing: byte)
    requires lib.Faithful() && EntriesWellFormed(entries, closing)
    ensures DecodesKeys(lib, entries)
  {
    if entries != [] { FaithfulDecodes(lib, entries[1..], closing); }
  }

  lemma MemberScanned(lib: Library, total: nat, e: Entry, tail: Bytes)
    requires lib.AcceptsNumbers() && DecodesKey(lib, e) && EntryWellFormed(e, CLOSE_BRACE)
    requires tail != [] && (tail[0] == COMMA || tail[0] == CLOSE_BRACE)
    requires |e.after + tail| <= |PrintEntry(e, tail)| <= total
    ensures SlotsFrom(lib, total, PrintEntry(e, tail))
            == SlotsBehind(lib, total, total - |PrintEntry(e, tail)|, KeyName(lib, e), e.after + tail)
    ensures SkipBlanks(e.after + tail) == tail
  {
    var value := PrintValue(e.value, e.after + tail);
    EntryScanned(lib, e, CLOSE_BRACE, tail);
    FirstByte(e.value, e.after + tail);
    KeyScanned(e.key.value, value);
    KeySlice(e.key.value, value);
    assert MemberAhead(lib, SkipBlanks(PrintEntry(e, tail))) == Some((KeyName(lib, e), e.after + tail));
  }

  /** Scanning a printed object finds exactly its members, in order and in place. */
  lemma {:induction false} SlotsScanned(lib: Library, total: nat, blank: Bytes, entries: seq<Entry>, trail: Bytes)
    requires lib.AcceptsNumbers() && DecodesKeys(lib, entries)
    requires Blanks(blank) && EntriesWellFormed(entries, CLOSE_BRACE) && Blanks(trail)
    requires |PrintBody(blank, entries, CLOSE_BRACE, trail)| <= total
    ensures SlotsFrom(lib, total, PrintBody(blank, entries, CLOSE_BRACE, trail))
            == Some(SlotsOf(lib, total, blank, entries, trail))
    decreases entries
  {
    if entries == [] {
      TrailSkipped(trail);
      BlanksSkipped(blank, [CLOSE_BRACE] + trail);
      assert ([CLOSE_BRACE] + trail)[1..] == trail;
    } else if |entries| == 1 {
      LastScanned(lib, total, blank, entries, trail);
    } else {
      EntryLengths(entries[0], AfterFirst(entries, CLOSE_BRACE, trail));
      SlotsScanned(lib, total, [], entries[1..], trail);
      MoreScanned(lib, total, blank, entries, trail);
    }
  }

  lemma MoreScanned(lib: Library, total: nat, blank: Bytes, entries: seq<Entry>, trail: Bytes)
    requires lib.AcceptsNumbers() && DecodesKeys(lib, entries) && |entries| > 1
    requires EntriesWellFormed(entries, CLOSE_BRACE)
    requires |PrintBody([], entries[1..], CLOSE_BRACE, trail)| < |PrintBody(blank, entries, CLOSE_BRACE, trail)|
             <= total
    requires SlotsFrom(lib, total, PrintBody([], entries[1..], CLOSE_BRACE, trail))
             == Some(SlotsOf(lib, total, [], entries[1..], trail))
    ensures SlotsFrom(lib, total, PrintBody(blank, entries, CLOSE_BRACE, trail))
            == Some(SlotsOf(lib, total, blank, entries, trail))
  {
    hide SlotsFrom, SkipBlanks;
    var e, tail := entries[0], AfterFirst(entries, CLOSE_BRACE, trail);
    EntryLengths(e, tail);
    NextStarts(lib, entries[1..], trail);
    MoreBehind(lib, total, e, PrintBody([], entries[1..], CLOSE_BRACE, trail),
        SlotsOf(lib, total, [], entries[1..], trail));
  }

  lemma MoreBehind(lib: Library, total: nat, e: Entry, more: Bytes, rest: seq<Slot>)
    requires lib.AcceptsNumbers() && DecodesKey(lib, e) && EntryWellFormed(e, CLOSE_BRACE)
    requires |e.after + ([COMMA] + more)| <= |PrintEntry(e, [COMMA] + more)| <= total
    requires SkipBlanks(more) != [] && SkipBlanks(more)[0] != CLOSE_BRACE && SlotsFrom(lib, total, more) == Some(rest)
    ensures SlotsFrom(lib, total, PrintEntry(e, [COMMA] + more))
            == Some([Slot(KeyName(lib, e), total - |PrintEntry(e, [COMMA] + more)|,
                          total - |e.after + ([COMMA] + more)|, Some(total - |more| - 1))] + rest)
  {
    hide PrintEntry, SkipBlanks, EntryWellFormed, DecodesKey;
    MemberScanned(lib, total, e, [COMMA] + more);
    Continued(lib, total, total - |PrintEntry(e, [COMMA] + more)|, KeyName(lib, e), e.after + ([COMMA] + more), more,
        rest);
  }

  /** A comma, and more members. */
  lemma {:induction false} Continued(lib: Library, total: nat, leading: nat, key: string, s: Bytes, more: Bytes,
          rest: seq<Slot>)
    requires |more| <= |s| <= total && SkipBlanks(s) == [COMMA] + more
    requires SkipBlanks(more) != [] && SkipBlanks(more)[0] != CLOSE_BRACE && SlotsFrom(lib, total, more) == Some(rest)
    ensures SlotsBehind(lib, total, leading, key, s)
            == Some([Slot(key, leading, total - |s|, Some(total - |more| - 1))] + rest)
  {
    hide MemberAhead;
    var next := SkipBlanks(s);
    assert next != [] && next[0] == COMMA && next[1..] == more && |next| == |more| + 1;
  }

  lemma LastScanned(lib: Library, total: nat, blank: Bytes, entries: seq<Entry>, trail: Bytes)
    requires lib.AcceptsNumbers() && DecodesKeys(lib, entries) && |entries| == 1
    requires EntriesWellFormed(entries, CLOSE_BRACE) && Blanks(trail)
    requires |PrintBody(blank, entries, CLOSE_BRACE, trail)| <= total
    ensures SlotsFrom(lib, total, PrintBody(blank, entries, CLOSE_BRACE, trail))
            == Some(SlotsOf(lib, total, blank, entries, trail))
  {
    var tail := AfterFirst(entries, CLOSE_BRACE, trail);
    TrailSkipped(trail);
    EntryLengths(entries[0], tail);
    MemberScanned(lib, total, entries[0], tail);
    assert tail[1..] == trail;
  }

  lemma NextStarts(lib: Library, entries: seq<Entry>, trail: Bytes)
    requires lib.AcceptsNumbers() && EntriesWellFormed(entries, CLOSE_BRACE) && entries != []
    ensures var ahead := SkipBlanks(PrintBody([], entries, CLOSE_BRACE, trail)); ahead != [] && ahead[0] != CLOSE_BRACE
  {
    EntryScanned(lib, entries[0], CLOSE_BRACE, AfterFirst(entries, CLOSE_BRACE, trail));
  }

  lemma TrailSkipped(trail: Bytes)
    requires Blanks(trail)
    ensures SkipBlanks(trail) == []
  {
    BlanksSkipped(trail, []);
    assert trail + [] == trail;
  }

  /** Slots follow one another: each but the last ends with a comma, behind which the next begins. */
  ghost predicate Placed(slots: seq<Slot>, total: nat) {
    forall i :: 0 <= i < |slots| ==>
      && slots[i].leadingStart <= slots[i].valueEnd <= total
      && (slots[i].commaStart.Some? <==> i + 1 < |slots|)
      && (slots[i].commaStart.Some? ==> slots[i].valueEnd <= slots[i].commaStart.value < total)
      && (i + 1 < |slots| ==> slots[i].commaStart.value < slots[i + 1].leadingStart)
  }

  lemma {:induction false} SlotsPlaced(lib: Library, total: nat, s: Bytes)
    requires |s| <= total && SlotsFrom(lib, total, s).Some?
    ensures Placed(SlotsFrom(lib, total, s).value, total)
    ensures SlotsFrom(lib, total, s).value != [] ==> SlotsFrom(lib, total, s).value[0].leadingStart == total - |s|
    decreases |s|
  {
    var start := SkipBlanks(s);
    if start[0] != CLOSE_BRACE {
      var next := SkipBlanks(MemberAhead(lib, start).value.1);
      if next[0] == COMMA {
        SlotsPlaced(lib, total, next[1..]);
        MoreMembers(lib, total, next[1..]);
      }
    }
  }

  /** Behind a comma there is another member. */
  lemma MoreMembers(lib: Library, total: nat, s: Bytes)
    requires |s| <= total && SlotsFrom(lib, total, s).Some?
    requires SkipBlanks(s)[0] != CLOSE_BRACE
    ensures SlotsFrom(lib, total, s).value != []
  {
  }

  // ---------------------------------------------------------------- dropping the photo

  function SlotKeys(slots: seq<Slot>): (keys: seq<string>)
    ensures |keys| == |slots|
  {
    if slots == [] then [] else [slots[0].key] + SlotKeys(slots[1..])
  }

  /** The first place of this key, or the number of keys. */
  function FirstNamed(keys: seq<string>, key: string): (i: nat)
    ensures i <= |keys| && (i < |keys| ==> keys[i] == key) && forall k :: 0 <= k < i ==> keys[k] != key
  {
    if keys == [] || keys[0] == key then 0 else 1 + FirstNamed(keys[1..], key)
  }

  /** The range that goes: with its own comma, or with the comma before it when it is the last. */
  function RemovedRange(slots: seq<Slot>, i: nat): (nat, nat)
    requires i < |slots| && (i > 0 ==> slots[i - 1].commaStart.Some?)
  {
    if slots[i].commaStart.Some? then (slots[i].leadingStart, slots[i].commaStart.value + 1)
    else if i > 0 then (slots[i - 1].commaStart.value, slots[i].valueEnd)
    else (slots[i].leadingStart, slots[i].valueEnd)
  }

  function PhotoKey(): string { "photo" }

  function WithoutPhotoText(lib: Library, raw: Bytes): Option<Bytes> {
    var slots := ObjectSlots(lib, raw);
    if !lib.valid(raw) || slots.None? then None
    else
      SlotsPlaced(lib, |raw|, SkipBlanks(raw)[1..]);
      var i := FirstNamed(SlotKeys(slots.value), PhotoKey());
      if i == |slots.value| then Some(raw)
      else
        var range := RemovedRange(slots.value, i);
        Some(raw[..range.0] + raw[range.1..])
  }

  /** The same removal on the tree. Only the blanks beside the removed member may join others. */
  datatype Body = Body(blank: Bytes, entries: seq<Entry>)

  function RemoveAt(blank: Bytes, entries: seq<Entry>, i: nat): (body: Body)
    requires i < |entries|
    ensures |body.entries| == |entries| - 1
    decreases i
  {
    if i == 0 then (if |entries| == 1 then Body(entries[0].after, []) else Body([], entries[1..]))
    else if |entries| == 2 then Body([], [entries[0].(after := entries[0].after + entries[1].after)])
    else Body([], [entries[0]] + RemoveAt([], entries[1..], i - 1).entries)
  }

  /** What a member says: its key and its value, without the blanks around them. */
  function Fields(entries: seq<Entry>): (fields: seq<(Units, Value)>)
    ensures |fields| == |entries|
  {
    if entries == [] then []
    else [(if entries[0].key.Some? then entries[0].key.value.units else [], entries[0].value)] + Fields(entries[1..])
  }

  /** The values of the members, byte by byte. */
  function ValueTexts(entries: seq<Entry>): (texts: seq<Bytes>)
    ensures |texts| == |entries|
  {
    if entries == [] then [] else [PrintValue(entries[0].value, [])] + ValueTexts(entries[1..])
  }

  function Without<T>(s: seq<T>, i: nat): seq<T>
    requires i < |s|
  {
    s[..i] + s[i + 1..]
  }

  lemma {:induction false} RemovedTree(blank: Bytes, entries: seq<Entry>, i: nat)
    requires i < |entries| && EntriesWellFormed(entries, CLOSE_BRACE)
    ensures var body := RemoveAt(blank, entries, i);
            && Blanks(body.blank) && EntriesWellFormed(body.entries, CLOSE_BRACE)
    decreases i
  {
    if i > 0 && |entries| > 2 {
      RemovedTree([], entries[1..], i - 1);
      var tail := RemoveAt([], entries[1..], i - 1).entries;
      assert ([entries[0]] + tail)[1..] == tail;
    } else {
      assert EntryWellFormed(entries[0], CLOSE_BRACE);
      if |entries| == 2 {
        assert EntryWellFormed(entries[1..][0], CLOSE_BRACE);
        var joined := entries[0].(after := entries[0].after + entries[1].after);
        assert EntryWellFormed(joined, CLOSE_BRACE) && [joined][1..] == [];
      }
    }
  }

  lemma {:induction false} RemovedFields(lib: Library, blank: Bytes, entries: seq<Entry>, i: nat)
    requires i < |entries|
    ensures var body := RemoveAt(blank, entries, i);
            && Fields(body.entries) == Without(Fields(entries), i)
            && Names(lib, body.entries) == Without(Names(lib, entries), i)
            && ValueTexts(body.entries) == Without(ValueTexts(entries), i)
    decreases i
  {
    if i > 0 {
      WithoutTail(ValueTexts(entries), i);
      WithoutTail(Fields(entries), i);
      WithoutTail(Names(lib, entries), i);
      if |entries| > 2 {
        RemovedFields(lib, [], entries[1..], i - 1);
        var tail := RemoveAt([], entries[1..], i - 1).entries;
        assert ([entries[0]] + tail)[1..] == tail;
      } else {
        var e := entries[0].(after := entries[0].after + entries[1].after);
        assert Fields([e]) == [Fields(entries)[0]] && Names(lib, [e]) == [Names(lib, entries)[0]];
        assert ValueTexts([e]) == [ValueTexts(entries)[0]];
      }
    }
  }

  lemma WithoutTail<T>(s: seq<T>, i: nat)
    requires 0 < i < |s|
    ensures Without(s, i) == [s[0]] + Without(s[1..], i - 1)
  {
  }

  lemma EntryParts(e: Entry, tail: Bytes)
    ensures PrintEntry(e, tail) == PrintEntry(e, []) + tail
  {
    EntryAppend(e, [], tail);
    assert [] + tail == tail;
  }

  /** An entry up to the end of its value. */
  function Bare(e: Entry): Bytes { PrintEntry(e.(after := []), []) }

  lemma BareParts(e: Entry, tail: Bytes)
    ensures PrintEntry(e, tail) == Bare(e) + (e.after + tail)
  {
    EntryAppend(e.(after := []), [], e.after + tail);
    assert [] + (e.after + tail) == e.after + tail;
  }

  /** Cutting the range out of `text`, which ends at position `total`, leaves `result`. */
  ghost predicate Cuts(text: Bytes, total: int, range: (nat, nat), result: Bytes) {
    var start, end := range.0 - (total - |text|), range.1 - (total - |text|);
    0 <= start <= end <= |text| && text[..start] + text[end..] == result
  }

  lemma CutsMiddle(text: Bytes, total: int, range: (nat, nat), head: Bytes, middle: Bytes, tail: Bytes)
    requires text == head + (middle + tail) && range.0 == total - |middle| - |tail| && range.1 == total - |tail|
    ensures Cuts(text, total, range, head + tail)
  {
  }

  lemma CutsBehind(head: Bytes, text: Bytes, total: int, range: (nat, nat), result: Bytes)
    requires Cuts(text, total, range, result)
    ensures Cuts(head + text, total, range, head + result)
  {
    var start, end := range.0 - (total - |text|), range.1 - (total - |text|);
    assert (head + text)[..|head| + start] == head + text[..start];
    assert (head + text)[|head| + end..] == text[end..];
  }

  lemma {:induction false} SlotKeysOf(lib: Library, total: nat, blank: Bytes, entries: seq<Entry>, trail: Bytes)
    requires |PrintBody(blank, entries, CLOSE_BRACE, trail)| <= total
    ensures SlotKeys(SlotsOf(lib, total, blank, entries, trail)) == Names(lib, entries)
    decreases entries
  {
    if entries != [] {
      EntryLengths(entries[0], AfterFirst(entries, CLOSE_BRACE, trail));
      if |entries| > 1 {
        SlotKeysOf(lib, total, [], entries[1..], trail);
      }
    }
  }

  /** Cutting the removed range out of a printed object prints the object without that member. */
  ghost predicate CutsOut(lib: Library, total: nat, blank: Bytes, entries: seq<Entry>, trail: Bytes, i: nat)
    requires i < |entries| && |PrintBody(blank, entries, CLOSE_BRACE, trail)| <= total
  {
    var slots, body := SlotsOf(lib, total, blank, entries, trail), RemoveAt(blank, entries, i);
    && (i > 0 ==> slots[i - 1].commaStart.Some?)
    && Cuts(PrintBody(blank, entries, CLOSE_BRACE, trail), total, RemovedRange(slots, i),
            PrintBody(body.blank, body.entries, CLOSE_BRACE, trail))
  }

  /** A printed object of several members: its first member and a comma, and the rest. */
  lemma FirstAndRest(blank: Bytes, entries: seq<Entry>, trail: Bytes)
    requires |entries| > 1
    ensures PrintBody(blank, entries, CLOSE_BRACE, trail)
            == PrintEntry(entries[0], []) + [COMMA] + PrintBody([], entries[1..], CLOSE_BRACE, trail)
  {
    EntryParts(entries[0], AfterFirst(entries, CLOSE_BRACE, trail));
    assert PrintEntry(entries[0], []) + ([COMMA] + PrintBody([], entries[1..], CLOSE_BRACE, trail))
        == PrintEntry(entries[0], []) + [COMMA] + PrintBody([], entries[1..], CLOSE_BRACE, trail);
  }

  /** A printed object of one member. */
  lemma Sole(blank: Bytes, entries: seq<Entry>, trail: Bytes)
    requires |entries| == 1
    ensures PrintBody(blank, entries, CLOSE_BRACE, trail)
            == Bare(entries[0]) + (entries[0].after + ([CLOSE_BRACE] + trail))
  {
    BareParts(entries[0], [CLOSE_BRACE] + trail);
  }

  /** The first slot: from the start of the text to the end of the value, and the comma. */
  lemma FirstSlot(lib: Library, total: nat, blank: Bytes, entries: seq<Entry>, trail: Bytes)
    requires entries != [] && |PrintBody(blank, entries, CLOSE_BRACE, trail)| <= total
    ensures var slot := SlotsOf(lib, total, blank, entries, trail)[0];
            && slot.leadingStart == total - |PrintBody(blank, entries, CLOSE_BRACE, trail)|
            && slot.valueEnd == total - |entries[0].after| - |AfterFirst(entries, CLOSE_BRACE, trail)|
            && slot.commaStart
               == if |entries| == 1 then None else Some(total - |AfterFirst(entries, CLOSE_BRACE, trail)|)
  {
    EntryLengths(entries[0], AfterFirst(entries, CLOSE_BRACE, trail));
  }

  lemma CutSole(lib: Library, total: nat, blank: Bytes, entries: seq<Entry>, trail: Bytes)
    requires |entries| == 1 && |PrintBody(blank, entries, CLOSE_BRACE, trail)| <= total
    ensures CutsOut(lib, total, blank, entries, trail, 0)
  {
    var text, kept := PrintBody(blank, entries, CLOSE_BRACE, trail), entries[0].after + ([CLOSE_BRACE] + trail);
    FirstSlot(lib, total, blank, entries, trail);
    Sole(blank, entries, trail);
    CutsMiddle(text, total, RemovedRange(SlotsOf(lib, total, blank, entries, trail), 0), [], Bare(entries[0]), kept);
    assert [] + kept == kept;
  }

  lemma CutFirst(lib: Library, total: nat, blank: Bytes, entries: seq<Entry>, trail: Bytes)
    requires |entries| > 1 && |PrintBody(blank, entries, CLOSE_BRACE, trail)| <= total
    ensures CutsOut(lib, total, blank, entries, trail, 0)
  {
    var text, rest := PrintBody(blank, entries, CLOSE_BRACE, trail), PrintBody([], entries[1..], CLOSE_BRACE, trail);
    FirstSlot(lib, total, blank, entries, trail);
    FirstAndRest(blank, entries, trail);
    CutsMiddle(text, total, RemovedRange(SlotsOf(lib, total, blank, entries, trail), 0), [],
        PrintEntry(entries[0], []) + [COMMA], rest);
    assert [] + rest == rest;
  }

  lemma CutLastOfTwo(lib: Library, total: nat, blank: Bytes, entries: seq<Entry>, trail: Bytes)
    requires |entries| == 2 && |PrintBody(blank, entries, CLOSE_BRACE, trail)| <= total
    ensures CutsOut(lib, total, blank, entries, trail, 1)
  {
    var text, last := PrintBody(blank, entries, CLOSE_BRACE, trail), entries[1].after + ([CLOSE_BRACE] + trail);
    FirstAndRest(blank, entries, trail);
    Sole([], entries[1..], trail);
    var head, middle := PrintEntry(entries[0], []), [COMMA] + Bare(entries[1]);
    assert text == head + (middle + last);
    TwoSlots(lib, total, blank, entries, trail);
    CutsMiddle(text, total, RemovedRange(SlotsOf(lib, total, blank, entries, trail), 1), head, middle, last);
    Joined(entries[0], entries[1].after, [CLOSE_BRACE] + trail);
  }

  lemma TwoSlots(lib: Library, total: nat, blank: Bytes, entries: seq<Entry>, trail: Bytes)
    requires |entries| == 2 && |PrintBody(blank, entries, CLOSE_BRACE, trail)| <= total
    ensures var slots := SlotsOf(lib, total, blank, entries, trail);
            && slots[0].commaStart == Some(total - |PrintBody([], entries[1..], CLOSE_BRACE, trail)| - 1)
            && slots[1].commaStart == None
            && slots[1].valueEnd == total - |entries[1].after + ([CLOSE_BRACE] + trail)|
  {
    EntryLengths(entries[0], AfterFirst(entries, CLOSE_BRACE, trail));
    FirstSlot(lib, total, blank, entries, trail);
    FirstSlot(lib, total, [], entries[1..], trail);
  }

  /** The blanks of a removed last member join those before it. */
  lemma Joined(e: Entry, blanks: Bytes, tail: Bytes)
    ensures PrintEntry(e.(after := e.after + blanks), tail) == PrintEntry(e, []) + (blanks + tail)
  {
    EntryParts(e, blanks + tail);
    assert e.after + (blanks + tail) == (e.after + blanks) + tail;
  }

  lemma {:induction false} RangeCut(lib: Library, total: nat, blank: Bytes, entries: seq<Entry>, trail: Bytes, i: nat)
    requires i < |entries| && |PrintBody(blank, entries, CLOSE_BRACE, trail)| <= total
    ensures CutsOut(lib, total, blank, entries, trail, i)
    decreases i
  {
    if i == 0 {
      if |entries| == 1 {
        CutSole(lib, total, blank, entries, trail);
      } else {
        CutFirst(lib, total, blank, entries, trail);
      }
    } else if |entries| == 2 {
      CutLastOfTwo(lib, total, blank, entries, trail);
    } else {
      FirstAndRest(blank, entries, trail);
      RangeCut(lib, total, [], entries[1..], trail, i - 1);
      CutLater(lib, total, blank, entries, trail, i);
    }
  }

  /** Away from the first member, the range is that of the rest. */
  lemma {:induction false} RangeLater(lib: Library, total: nat, blank: Bytes, entries: seq<Entry>, trail: Bytes, i: nat)
    requires 0 < i < |entries| && |entries| > 2
    requires |PrintBody([], entries[1..], CLOSE_BRACE, trail)| <= |PrintBody(blank, entries, CLOSE_BRACE, trail)|
             <= total
    requires i > 1 ==> SlotsOf(lib, total, [], entries[1..], trail)[i - 2].commaStart.Some?
    ensures var slots := SlotsOf(lib, total, blank, entries, trail);
            && slots[i - 1].commaStart.Some?
            && RemovedRange(slots, i) == RemovedRange(SlotsOf(lib, total, [], entries[1..], trail), i - 1)
  {
    EntryLengths(entries[0], AfterFirst(entries, CLOSE_BRACE, trail));
    var slots, rest := SlotsOf(lib, total, blank, entries, trail), SlotsOf(lib, total, [], entries[1..], trail);
    assert slots == [slots[0]] + rest && slots[0].commaStart.Some?;
    FirstSlot(lib, total, [], entries[1..], trail);
  }

  lemma CutLater(lib: Library, total: nat, blank: Bytes, entries: seq<Entry>, trail: Bytes, i: nat)
    requires 0 < i < |entries| && |entries| > 2
    requires |PrintBody([], entries[1..], CLOSE_BRACE, trail)| <= |PrintBody(blank, entries, CLOSE_BRACE, trail)|
             <= total
    requires CutsOut(lib, total, [], entries[1..], trail, i - 1)
    ensures CutsOut(lib, total, blank, entries, trail, i)
  {
    var rest, body := PrintBody([], entries[1..], CLOSE_BRACE, trail), RemoveAt([], entries[1..], i - 1);
    FirstAndRest(blank, entries, trail);
    RangeLater(lib, total, blank, entries, trail, i);
    CutsBehind(PrintEntry(entries[0], []) + [COMMA], rest, total,
               RemovedRange(SlotsOf(lib, total, [], entries[1..], trail), i - 1),
               PrintBody(body.blank, body.entries, CLOSE_BRACE, trail));
    RemovedLater(entries, trail, i);
  }

  lemma RemovedLater(entries: seq<Entry>, trail: Bytes, i: nat)
    requires 0 < i < |entries| && |entries| > 2
    ensures var body := RemoveAt([], entries[1..], i - 1);
            && RemoveAt([], entries, i) == Body([], [entries[0]] + body.entries)
            && PrintBody([], [entries[0]] + body.entries, CLOSE_BRACE, trail)
               == PrintEntry(entries[0], []) + [COMMA] + PrintBody(body.blank, body.entries, CLOSE_BRACE, trail)
  {
    var body := RemoveAt([], entries[1..], i - 1);
    assert ([entries[0]] + body.entries)[1..] == body.entries;
    FirstAndRest([], [entries[0]] + body.entries, trail);
    BlankIrrelevant(body.blank, body.entries, trail);
  }

  lemma BlankIrrelevant(blank: Bytes, entries: seq<Entry>, trail: Bytes)
    requires entries != []
    ensures PrintBody(blank, entries, CLOSE_BRACE, trail) == PrintBody([], entries, CLOSE_BRACE, trail)
  {
  }

  // ---------------------------------------------------------------- the whole text

  /** `raw` is a JSON object, read as this tree. */
  ghost predicate IsObject(raw: Bytes, lead: Bytes, blank: Bytes, entries: seq<Entry>, trail: Bytes) {
    IsText(raw, lead, Nest(CLOSE_BRACE, blank, entries), trail)
  }

  /** Scanning a JSON object finds its members: one slot each, with its decoded key. */
  lemma ObjectScanned(lib: Library, raw: Bytes, lead: Bytes, blank: Bytes, entries: seq<Entry>, trail: Bytes)
    requires lib.Faithful() && IsObject(raw, lead, blank, entries, trail)
    ensures |PrintBody(blank, entries, CLOSE_BRACE, trail)| < |raw|
    ensures SkipBlanks(raw) == [OPEN_BRACE] + PrintBody(blank, entries, CLOSE_BRACE, trail)
    ensures ObjectSlots(lib, raw) == Some(SlotsOf(lib, |raw|, blank, entries, trail))
    ensures SlotKeys(ObjectSlots(lib, raw).value) == Names(lib, entries)
  {
    var text := PrintBody(blank, entries, CLOSE_BRACE, trail);
    BlanksSkipped(lead, [OPEN_BRACE] + text);
    assert ([OPEN_BRACE] + text)[1..] == text;
    FaithfulDecodes(lib, entries, CLOSE_BRACE);
    SlotsScanned(lib, |raw|, blank, entries, trail);
    SlotKeysOf(lib, |raw|, blank, entries, trail);
  }

  /**
   For every valid JSON object: the output is the input without one contiguous range, it is again a JSON
   object, and its members are the old ones without the first that is called photo, in their order. Without
   such a member the input comes back unchanged.
   */
  lemma {:induction false} PhotoDropped(lib: Library, raw: Bytes, lead: Bytes, blank: Bytes, entries: seq<Entry>,
          trail: Bytes)
    requires lib.Faithful() && lib.valid(raw) && IsObject(raw, lead, blank, entries, trail)
    ensures WithoutPhotoText(lib, raw).Some?
    ensures var out, i := WithoutPhotoText(lib, raw).value, FirstNamed(Names(lib, entries), "photo");
            if i == |entries| then out == raw
            else
              var body := RemoveAt(blank, entries, i);
              && (exists start, end :: 0 <= start <= end <= |raw| && out == raw[..start] + raw[end..])
              && IsObject(out, lead, body.blank, body.entries, trail)
              && Fields(body.entries) == Without(Fields(entries), i)
  {
    ObjectScanned(lib, raw, lead, blank, entries, trail);
    var i := FirstNamed(Names(lib, entries), PhotoKey());
    if i < |entries| {
      var body := RemoveAt(blank, entries, i);
      CutRaw(lib, raw, lead, blank, entries, trail, i);
      RemovedTree(blank, entries, i);
      RemovedFields(lib, blank, entries, i);
    }
  }

  /** A cut in what follows a prefix is the same cut in the whole. */
  lemma CutsWhole(raw: Bytes, lead: Bytes, text: Bytes, range: (nat, nat), cut: Bytes)
    requires raw == lead + ([OPEN_BRACE] + text) && Cuts(text, |raw|, range, cut)
    ensures range.0 <= range.1 <= |raw| && raw[..range.0] + raw[range.1..] == lead + ([OPEN_BRACE] + cut)
  {
    assert raw == (lead + [OPEN_BRACE]) + text;
    CutsBehind(lead + [OPEN_BRACE], text, |raw|, range, cut);
    assert lead + [OPEN_BRACE] + cut == lead + ([OPEN_BRACE] + cut);
  }

  lemma CutRaw(lib: Library, raw: Bytes, lead: Bytes, blank: Bytes, entries: seq<Entry>, trail: Bytes, i: nat)
    requires raw == PrintText(lead, Nest(CLOSE_BRACE, blank, entries), trail) && i < |entries|
    requires |PrintBody(blank, entries, CLOSE_BRACE, trail)| <= |raw|
    ensures var slots, body := SlotsOf(lib, |raw|, blank, entries, trail), RemoveAt(blank, entries, i);
            && (i > 0 ==> slots[i - 1].commaStart.Some?)
            && var range := RemovedRange(slots, i);
               && range.0 <= range.1 <= |raw|
               && raw[..range.0] + raw[range.1..] == PrintText(lead, Nest(CLOSE_BRACE, body.blank, body.entries), trail)
  {
    RangeCut(lib, |raw|, blank, entries, trail, i);
    var body := RemoveAt(blank, entries, i);
    CutsWhole(raw, lead, PrintBody(blank, entries, CLOSE_BRACE, trail),
              RemovedRange(SlotsOf(lib, |raw|, blank, entries, trail), i),
              PrintBody(body.blank, body.entries, CLOSE_BRACE, trail));
  }

  /** The bytes of a slot's value: from behind its key and colon to its end. */
  function SlotValue(raw: Bytes, slot: Slot): Bytes {
    if slot.leadingStart > |raw| || slot.valueEnd > |raw| then []
    else
      var value := KeyRest(SkipBlanks(raw[slot.leadingStart..]));
      if value.None? || |raw| - |value.value| > slot.valueEnd then [] else raw[|raw| - |value.value|..slot.valueEnd]
  }

  function SlotValues(raw: Bytes, slots: seq<Slot>): (values: seq<Bytes>)
    ensures |values| == |slots|
  {
    if slots == [] then [] else [SlotValue(raw, slots[0])] + SlotValues(raw, slots[1..])
  }

  lemma {:induction false} SlotValueFound(lib: Library, raw: Bytes, e: Entry, tail: Bytes, slot: Slot)
    requires lib.AcceptsNumbers() && EntryWellFormed(e, CLOSE_BRACE) && tail != []
             && (tail[0] == COMMA || tail[0] == CLOSE_BRACE)
    requires |e.after + tail| <= |PrintEntry(e, tail)| <= |raw|
             && raw[|raw| - |PrintEntry(e, tail)|..] == PrintEntry(e, tail)
    requires slot.leadingStart == |raw| - |PrintEntry(e, tail)| && slot.valueEnd == |raw| - |e.after + tail|
    ensures SlotValue(raw, slot) == PrintValue(e.value, [])
  {
    hide KeyRest, SkipBlanks, PrintEntry, PrintValue, EntryWellFormed;
    ValueAhead(lib, e, tail);
    ValueCut(raw, PrintEntry(e, tail), SkipBlanks(PrintEntry(e, tail)), PrintValue(e.value, []), e.after + tail);
  }

  /** Behind blanks, key, colon and blanks stands the value, which is the end of the text from there. */
  lemma {:induction false} ValueAhead(lib: Library, e: Entry, tail: Bytes)
    requires lib.AcceptsNumbers() && EntryWellFormed(e, CLOSE_BRACE) && tail != []
             && (tail[0] == COMMA || tail[0] == CLOSE_BRACE)
    ensures var entry, value := PrintEntry(e, tail), PrintValue(e.value, []) + (e.after + tail);
            var start := SkipBlanks(entry);
            && KeyRest(start) == Some(value) && |value| <= |start| <= |entry|
            && entry[|entry| - |start|..] == start && start[|start| - |value|..] == value
  {
    hide KeyRest, SkipBlanks, PrintEntry, PrintValue, EntryWellFormed;
    EntryScanned(lib, e, CLOSE_BRACE, tail);
    ValueAppend(e.value, [], e.after + tail);
    assert [] + (e.after + tail) == e.after + tail;
    SuffixSkipped(PrintEntry(e, tail));
    KeySuffix(SkipBlanks(PrintEntry(e, tail)));
  }

  /** Cutting a text out of suffixes of suffixes. */
  lemma ValueCut(raw: Bytes, entry: Bytes, start: Bytes, text: Bytes, behind: Bytes)
    requires |text + behind| <= |start| <= |entry| <= |raw| && raw[|raw| - |entry|..] == entry
    requires entry[|entry| - |start|..] == start && start[|start| - |text + behind|..] == text + behind
    ensures raw[|raw| - |text + behind|..|raw| - |behind|] == text
  {
    var value := text + behind;
    assert raw[|raw| - |start|..] == raw[|raw| - |entry|..][|entry| - |start|..] == start;
    assert raw[|raw| - |value|..] == raw[|raw| - |start|..][|start| - |value|..] == value;
    assert raw[|raw| - |value|..|raw| - |behind|] == raw[|raw| - |value|..][..|text|] == text;
  }

  lemma {:induction false} SuffixSkipped(s: Bytes)
    ensures SkipBlanks(s) == s[|s| - |SkipBlanks(s)|..]
  {
    if s != [] && IsBlank(s[0]) { SuffixSkipped(s[1..]); }
  }

  lemma {:induction false} UnitsSuffix(s: Bytes)
    ensures UnitsRest(s).Some? ==> |UnitsRest(s).value| <= |s| && UnitsRest(s).value == s[|s| - |UnitsRest(s).value|..]
    decreases |s|
  {
    if s != [] && s[0] != QUOTE {
      if s[0] != BACKSLASH { UnitsSuffix(s[1..]); } else if |s| > 1 { UnitsSuffix(s[2..]); }
    }
  }

  lemma {:induction false} KeySuffix(s: Bytes)
    requires KeyRest(s).Some?
    ensures KeyRest(s).value == s[|s| - |KeyRest(s).value|..]
  {
    var afterKey := StringRest(s).value;
    UnitsSuffix(s[1..]);
    SuffixSkipped(afterKey);
    SuffixSkipped(SkipBlanks(afterKey)[1..]);
  }

  lemma {:induction false} SlotValuesFound(lib: Library, raw: Bytes, blank: Bytes, entries: seq<Entry>, trail: Bytes)
    requires lib.AcceptsNumbers() && EntriesWellFormed(entries, CLOSE_BRACE)
    requires |PrintBody(blank, entries, CLOSE_BRACE, trail)| <= |raw|
    requires raw[|raw| - |PrintBody(blank, entries, CLOSE_BRACE, trail)|..]
             == PrintBody(blank, entries, CLOSE_BRACE, trail)
    ensures SlotValues(raw, SlotsOf(lib, |raw|, blank, entries, trail)) == ValueTexts(entries)
    decreases entries
  {
    hide PrintEntry, PrintValue, SlotValue, EntryWellFormed;
    if entries != [] {
      var e, tail := entries[0], AfterFirst(entries, CLOSE_BRACE, trail);
      EntryLengths(e, tail);
      SlotValueFound(lib, raw, e, tail, SlotsOf(lib, |raw|, blank, entries, trail)[0]);
      if |entries| > 1 {
        var all, more := PrintBody(blank, entries, CLOSE_BRACE, trail), PrintBody([], entries[1..], CLOSE_BRACE, trail);
        FirstAndRest(blank, entries, trail);
        assert raw[|raw| - |more|..] == raw[|raw| - |all|..][|all| - |more|..] == more;
        SlotValuesFound(lib, raw, [], entries[1..], trail);
      }
    }
  }

  lemma BehindBrace(lead: Bytes, text: Bytes)
    ensures var raw := lead + ([OPEN_BRACE] + text); raw[|raw| - |text|..] == text
  {
  }

  /** Scanning an object finds the bytes of every value. */
  lemma {:induction false} ObjectValues(lib: Library, raw: Bytes, lead: Bytes, blank: Bytes, entries: seq<Entry>,
          trail: Bytes)
    requires lib.Faithful() && IsObject(raw, lead, blank, entries, trail)
    ensures ObjectSlots(lib, raw).Some? && SlotValues(raw, ObjectSlots(lib, raw).value) == ValueTexts(entries)
  {
    var text := PrintBody(blank, entries, CLOSE_BRACE, trail);
    hide EntryWellFormed, SlotValue, SlotsFrom, ObjectSlots, PrintBody;
    ObjectScanned(lib, raw, lead, blank, entries, trail);
    BehindBrace(lead, text);
    SlotValuesFound(lib, raw, blank, entries, trail);
  }

  /** Scanning the output again finds exactly the old members without the first photo: their keys, and their values
      byte by byte. */
  lemma PhotoGoneOnRescan(lib: Library, raw: Bytes, lead: Bytes, blank: Bytes, entries: seq<Entry>, trail: Bytes)
    requires lib.Faithful() && lib.valid(raw) && IsObject(raw, lead, blank, entries, trail)
    requires "photo" in Names(lib, entries)
    ensures ObjectSlots(lib, raw).Some? && WithoutPhotoText(lib, raw).Some?
    ensures var before, after := ObjectSlots(lib, raw), ObjectSlots(lib, WithoutPhotoText(lib, raw).value);
            && after.Some?
            && FirstNamed(SlotKeys(before.value), "photo") < |before.value|
            && var i := FirstNamed(SlotKeys(before.value), "photo");
               && SlotKeys(after.value) == Without(SlotKeys(before.value), i)
               && SlotValues(WithoutPhotoText(lib, raw).value, after.value) == Without(SlotValues(raw, before.value), i)
  {
    PhotoDropped(lib, raw, lead, blank, entries, trail);
    ObjectScanned(lib, raw, lead, blank, entries, trail);
    var i := FirstNamed(Names(lib, entries), PhotoKey());
    assert i < |entries|;
    var body := RemoveAt(blank, entries, i);
    ObjectScanned(lib, WithoutPhotoText(lib, raw).value, lead, body.blank, body.entries, trail);
    ObjectValues(lib, raw, lead, blank, entries, trail);
    ObjectValues(lib, WithoutPhotoText(lib, raw).value, lead, body.blank, body.entries, trail);
    RemovedFields(lib, blank, entries, i);
  }

  /** It fails exactly on texts that are not valid, or not an object. */
  lemma FailsUnlessObject(lib: Library, raw: Bytes)
    requires lib.Faithful()
    ensures WithoutPhotoText(lib, raw).Some?
            <==> lib.valid(raw) && exists lead, blank, entries, trail :: IsObject(raw, lead, blank, entries, trail)
  {
    if lib.valid(raw) {
      var lead, v, trail :| IsText(raw, lead, v, trail);
      FirstByte(v, trail);
      BlanksSkipped(lead, PrintValue(v, trail));
      StartsWithBrace(v, trail);
      if v.Nest? && v.closing == CLOSE_BRACE {
        PhotoDropped(lib, raw, lead, v.blank, v.entries, trail);
        assert IsObject(raw, lead, v.blank, v.entries, trail);
      } else if exists lead, blank, entries, trail :: IsObject(raw, lead, blank, entries, trail) {
        var lead', blank', entries', trail' :| IsObject(raw, lead', blank', entries', trail');
        ObjectScanned(lib, raw, lead', blank', entries', trail');
        assert false;
      }
    }
  }

  lemma StartsWithBrace(v: Value, trail: Bytes)
    requires WellFormed(v) && PrintValue(v, trail) != []
    ensures PrintValue(v, trail)[0] == OPEN_BRACE <==> v.Nest? && v.closing == CLOSE_BRACE
  {
    match v
    case Word(text) => assert (text + trail)[0] == text[0];
    case Number(text) => NumberStarts(text, trail);
    case String(_) =>
    case Nest(_, _, _) =>
  }
}
