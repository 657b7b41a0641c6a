/** The index loops of the scanner, each proved to stop where the functions of JsonScan say. */
module JsonScanner {
  import opened Bytes
  import opened JsonScan
  import opened JsonText
  import opened Options

  /** The end position stands for the bytes that are left. */
  ghost predicate Agrees(raw: Bytes, end: Option<nat>, rest: Option<Bytes>) {
    (end.Some? <==> rest.Some?) && (end.Some? ==> end.value <= |raw| && rest.value == raw[end.value..])
  }

  lemma At(raw: Bytes, i: nat)
    requires i < |raw|
    ensures raw[i..] != [] && raw[i..][0] == raw[i] && raw[i..][1..] == raw[i + 1..]
  {
  }

  method SkipJsonSpace(raw: Bytes, index: nat) returns (end: nat)
    requires index <= |raw|
    ensures index <= end <= |raw| && raw[end..] == SkipBlanks(raw[index..])
  {
    end := index;
    while end < |raw|
      invariant index <= end <= |raw| && SkipBlanks(raw[end..]) == SkipBlanks(raw[index..])
    {
      At(raw, end);
      if !IsBlank(raw[end]) { return end; }
      end := end + 1;
    }
  }

  method ScanJsonString(raw: Bytes, index: nat) returns (end: Option<nat>)
    requires index <= |raw|
    ensures Agrees(raw, end, StringRest(raw[index..])) && (end.Some? ==> index < end.value)
  {
    if index >= |raw| || raw[index] != QUOTE { return None; }
    At(raw, index);
    var i := index + 1;
    while i < |raw|
      invariant index < i <= |raw| + 1
      invariant if i <= |raw| then UnitsRest(raw[i..]) == StringRest(raw[index..]) else StringRest(raw[index..]) == None
    {
      At(raw, i);
      if raw[i] == BACKSLASH {
        assert i + 2 <= |raw| ==> raw[i..][2..] == raw[i + 2..];
        i := i + 1;
      } else if raw[i] == QUOTE {
        return Some(i + 1);
      } else if raw[i] < FIRST_PRINTABLE {
        return None;
      }
      i := i + 1;
    }
    end := None;
  }

  method ScanJsonLiteral(raw: Bytes, index: nat, word: Bytes) returns (end: Option<nat>)
    requires index <= |raw| && word != []
    ensures Agrees(raw, end, WordRest(raw[index..], word)) && (end.Some? ==> index < end.value)
  {
    var stop := index + |word|;
    if stop > |raw| || raw[index..stop] != word { return None; }
    assert raw[index..][|word|..] == raw[stop..];
    return Some(stop);
  }

  method ScanToken(raw: Bytes, index: nat) returns (end: nat)
    requires index <= |raw|
    ensures end == index + TokenLength(raw[index..])
  {
    end := index;
    while end < |raw| && !IsDelimiter(raw[end])
      invariant index <= end <= |raw| && end + TokenLength(raw[end..]) == index + TokenLength(raw[index..])
    {
      At(raw, end);
      end := end + 1;
    }
  }

  /** A key with its colon, as in both the object loop and the nested one. */
  method ScanKey(raw: Bytes, index: nat) returns (keyEnd: Option<nat>, value: Option<nat>)
    requires index <= |raw|
    ensures Agrees(raw, keyEnd, StringRest(raw[index..])) && Agrees(raw, value, KeyRest(raw[index..]))
    ensures (keyEnd.Some? ==> index < keyEnd.value) && (value.Some? ==> index < value.value && keyEnd.Some?)
  {
    keyEnd := ScanJsonString(raw, index);
    if keyEnd.None? { return keyEnd, None; }
    var colon := SkipJsonSpace(raw, keyEnd.value);
    if colon >= |raw| || raw[colon] != COLON { return keyEnd, None; }
    At(raw, colon);
    var start := SkipJsonSpace(raw, colon + 1);
    return keyEnd, Some(start);
  }

  method ScanJsonValue(lib: Library, raw: Bytes, index: nat) returns (end: Option<nat>)
    requires index <= |raw|
    ensures Agrees(raw, end, ValueRest(lib, raw[index..])) && (end.Some? ==> index < end.value)
    decreases |raw| - index, 0
  {
    if index >= |raw| { return None; }
    At(raw, index);
    if raw[index] == QUOTE {
      end := ScanJsonString(raw, index);
    } else if raw[index] == OPEN_BRACE {
      end := ScanJsonContainer(lib, raw, index, CLOSE_BRACE);
    } else if raw[index] == OPEN_BRACKET {
      end := ScanJsonContainer(lib, raw, index, CLOSE_BRACKET);
    } else if raw[index] == TRUE_WORD[0] {
      end := ScanJsonLiteral(raw, index, TRUE_WORD);
    } else if raw[index] == FALSE_WORD[0] {
      end := ScanJsonLiteral(raw, index, FALSE_WORD);
    } else if raw[index] == NULL_WORD[0] {
      end := ScanJsonLiteral(raw, index, NULL_WORD);
    } else {
      var stop := ScanToken(raw, index);
      assert raw[index..][..stop - index] == raw[index..stop] && raw[index..][stop - index..] == raw[stop..];
      if stop == index || !lib.valid(raw[index..stop]) { return None; }
      return Some(stop);
    }
  }

  method ScanJsonContainer(lib: Library, raw: Bytes, index: nat, closing: byte) returns (end: Option<nat>)
    requires index < |raw|
    ensures Agrees(raw, end, ContainerRest(lib, raw[index + 1..], closing)) && (end.Some? ==> index < end.value)
    decreases |raw| - index - 1, 2
  {
    var i := index + 1;
    while true
      invariant index < i <= |raw|
                && ContainerRest(lib, raw[i..], closing) == ContainerRest(lib, raw[index + 1..], closing)
      decreases |raw| - i
    {
      var start := SkipJsonSpace(raw, i);
      if start >= |raw| { return None; }
      At(raw, start);
      if raw[start] == closing { return Some(start + 1); }
      var next := ScanEntry(lib, raw, start, closing);
      if next.None? || next.value >= |raw| { return None; }
      At(raw, next.value);
      if raw[next.value] != COMMA {
        return if raw[next.value] == closing then Some(next.value + 1) else None;
      }
      i := next.value + 1;
    }
  }

  /** The part of the loop that reads one element or member. */
  method ScanEntry(lib: Library, raw: Bytes, start: nat, closing: byte) returns (next: Option<nat>)
    requires start < |raw|
    ensures Agrees(raw, next, EntryRest(lib, raw[start..], closing)) && (next.Some? ==> start < next.value)
    decreases |raw| - start, 1
  {
    var value := start;
    if closing == CLOSE_BRACE {
      var _, behind := ScanKey(raw, start);
      if behind.None? { return None; }
      value := behind.value;
    }
    var valueEnd := ScanJsonValue(lib, raw, value);
    if valueEnd.None? { return None; }
    var end := SkipJsonSpace(raw, valueEnd.value);
    return Some(end);
  }

  /** What one round of the object loop finds: a failure, the closing brace, the last member, or one before a comma. */
  datatype Round = Failed | Ended | Last(slot: Slot) | More(slot: Slot)

  ghost function Prefixed(entries: seq<Slot>, rest: Option<seq<Slot>>): Option<seq<Slot>> {
    if rest.None? then None else Some(entries + rest.value)
  }

  /** All slots, when `entries` are read and a round from here finds this. */
  ghost predicate Rounds(all: Option<seq<Slot>>, round: Round, rest: Option<seq<Slot>>) {
    match round
    case Failed => all == None
    case Ended => all == Some([])
    case Last(slot) => all == Some([slot])
    case More(slot) => all == Prefixed([slot], rest)
  }

  lemma PrefixedRound(entries: seq<Slot>, round: Round, all: Option<seq<Slot>>, rest: Option<seq<Slot>>)
    requires Rounds(all, round, rest)
    ensures match round
            case Failed => Prefixed(entries, all) == None
            case Ended => Prefixed(entries, all) == Some(entries)
            case Last(slot) => Prefixed(entries, all) == Some(entries + [slot])
            case More(slot) => Prefixed(entries, all) == Prefixed(entries + [slot], rest)
  {
    assert entries + [] == entries;
    if round.More? && rest.Some? {
      assert entries + ([round.slot] + rest.value) == entries + [round.slot] + rest.value;
    }
  }

  method ScanObjectEntries(lib: Library, raw: Bytes) returns (slots: Option<seq<Slot>>)
    ensures slots == ObjectSlots(lib, raw)
  {
    var index := SkipJsonSpace(raw, 0);
    assert raw[0..] == raw;
    if index >= |raw| || raw[index] != OPEN_BRACE { return None; }
    At(raw, index);
    index := index + 1;
    slots := ScanMembers(lib, raw, index);
  }

  method ScanMembers(lib: Library, raw: Bytes, from: nat) returns (slots: Option<seq<Slot>>)
    requires from <= |raw|
    ensures slots == SlotsFrom(lib, |raw|, raw[from..])
  {
    var index, entries := from, [];
    ghost var all := SlotsFrom(lib, |raw|, raw[from..]);
    assert Prefixed([], all) == all by { assert all.Some? ==> [] + all.value == all.value; }
    while true
      invariant index <= |raw| && all == Prefixed(entries, SlotsFrom(lib, |raw|, raw[index..]))
      decreases |raw| - index
    {
      var round, next := ScanRound(lib, raw, index);
      PrefixedRound(entries, round, SlotsFrom(lib, |raw|, raw[index..]), SlotsFrom(lib, |raw|, raw[next..]));
      match round
      case Failed => return None;
      case Ended => return Some(entries);
      case Last(slot) => return Some(entries + [slot]);
      case More(slot) => entries, index := entries + [slot], next;
    }
  }

  method ScanRound(lib: Library, raw: Bytes, index: nat) returns (round: Round, next: nat)
    requires index <= |raw|
    ensures next <= |raw| && (round.More? ==> index < next)
    ensures Rounds(SlotsFrom(lib, |raw|, raw[index..]), round, SlotsFrom(lib, |raw|, raw[next..]))
  {
    next := |raw|;
    var start := SkipJsonSpace(raw, index);
    if start >= |raw| { return Failed, next; }
    At(raw, start);
    if raw[start] == CLOSE_BRACE {
      var stop := SkipJsonSpace(raw, start + 1);
      return if stop != |raw| then Failed else Ended, next;
    }
    var member := ScanMember(lib, raw, start);
    if member.None? { return Failed, next; }
    round, next := ScanBehind(lib, raw, index, member.value.0, member.value.1);
  }

  lemma BehindComma(lib: Library, total: nat, leading: nat, key: string, s: Bytes, next: Bytes)
    requires |s| <= total && SkipBlanks(s) == next && next != [] && next[0] == COMMA
    requires SkipBlanks(next[1..]) != [] && SkipBlanks(next[1..])[0] != CLOSE_BRACE
    ensures SlotsBehind(lib, total, leading, key, s)
            == Prefixed([Slot(key, leading, total - |s|, Some(total - |next|))], SlotsFrom(lib, total, next[1..]))
  {
  }

  /** Behind a value: another member must follow a comma, and nothing the last brace. */
  method ScanBehind(lib: Library, raw: Bytes, leading: nat, key: string, valueEnd: nat)
    returns (round: Round, next: nat)
    requires leading <= valueEnd <= |raw|
    ensures next <= |raw| && (round.More? ==> valueEnd < next)
    ensures Rounds(SlotsBehind(lib, |raw|, leading, key, raw[valueEnd..]), round, SlotsFrom(lib, |raw|, raw[next..]))
  {
    hide MemberAhead;
    next := SkipJsonSpace(raw, valueEnd);
    if next >= |raw| { return Failed, next; }
    At(raw, next);
    if raw[next] == COMMA {
      var ahead := SkipJsonSpace(raw, next + 1);
      if ahead >= |raw| || raw[ahead] == CLOSE_BRACE { return Failed, next; }
      BehindComma(lib, |raw|, leading, key, raw[valueEnd..], raw[next..]);
      return More(Slot(key, leading, valueEnd, Some(next))), next + 1;
    }
    if raw[next] != CLOSE_BRACE { return Failed, next; }
    var stop := SkipJsonSpace(raw, next + 1);
    return if stop != |raw| then Failed else Last(Slot(key, leading, valueEnd, None)), next;
  }

  /** The part of the object loop that reads a key and its value. */
  method ScanMember(lib: Library, raw: Bytes, start: nat) returns (member: Option<(string, nat)>)
    requires start < |raw|
    ensures member.Some? <==> MemberAhead(lib, raw[start..]).Some?
    ensures member.Some? ==> start < member.value.1 <= |raw|
                             && MemberAhead(lib, raw[start..]) == Some((member.value.0, raw[member.value.1..]))
  {
    var keyEnd, value := ScanKey(raw, start);
    if value.None? { return None; }
    assert raw[start..][..keyEnd.value - start] == raw[start..keyEnd.value];
    var key := lib.decode(raw[start..keyEnd.value]);
    if key.None? { return None; }
    var valueEnd := ScanJsonValue(lib, raw, value.value);
    if valueEnd.None? { return None; }
    return Some((key.value, valueEnd.value));
  }

  /** Drops the first member called photo, byte for byte, and fails on anything but a valid object. */
  method WithoutPhoto(lib: Library, raw: Bytes) returns (out: Option<Bytes>)
    ensures out == WithoutPhotoText(lib, raw)
  {
    if !lib.valid(raw) { return None; }
    var scanned := ScanObjectEntries(lib, raw);
    if scanned.None? { return None; }
    var entries := scanned.value;
    SlotsPlaced(lib, |raw|, SkipBlanks(raw)[1..]);
    ghost var keys := SlotKeys(entries);
    var index := 0;
    while index < |entries|
      invariant index <= |entries| && FirstNamed(keys, PhotoKey()) >= index
    {
      KeyAt(entries, index);
      if entries[index].key == PhotoKey() {
        var start, end := entries[index].leadingStart, entries[index].valueEnd;
        if entries[index].commaStart.Some? {
          end := entries[index].commaStart.value + 1;
        } else if index > 0 {
          start := entries[index - 1].commaStart.value;
        }
        assert FirstNamed(keys, PhotoKey()) == index;
        return Some(raw[..start] + raw[end..]);
      }
      index := index + 1;
    }
    return Some(raw);
  }

  lemma {:induction false} KeyAt(slots: seq<Slot>, i: nat)
    requires i < |slots|
    ensures SlotKeys(slots)[i] == slots[i].key
  {
    if i > 0 { KeyAt(slots[1..], i - 1); }
  }
}
