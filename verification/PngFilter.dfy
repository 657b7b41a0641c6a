/** PNG row filters: the in-place loop undoes every filtering of RFC 2083, section 6. */
module PngFilter {
  import opened Bytes
  import opened Options

  // ---------------------------------------------------------------- the predictors

  function Abs(x: int): nat { if x < 0 then -x else x }

  /** Section 6.6 of RFC 2083: the neighbour closest to a + b - c, ties in the order a, b, c. */
  function Paeth(a: int, b: int, c: int): int {
    var p := a + b - c;
    var pa, pb, pc := Abs(p - a), Abs(p - b), Abs(p - c);
    if pa <= pb && pa <= pc then a else if pb <= pc then b else c
  }

  /** Section 6 of RFC 2083: what each filter type predicts from the left, the upper and the upper left byte. */
  function Predictor(kind: int, left: byte, up: byte, upperLeft: byte): (p: int)
    ensures 0 <= p < 256
  {
    match kind
    case 1 => left
    case 2 => up
    case 3 => (left + up) / 2
    case 4 => Paeth(left, up, upperLeft)
    case _ => 0
  }

  function Min(s: seq<int>): (m: int)
    requires s != []
    ensures m in s && forall x <- s :: m <= x
  {
    if |s| == 1 then s[0]
    else
      var m := Min(s[1..]);
      assert s == [s[0]] + s[1..];
      if s[0] <= m then s[0] else m
  }

  function IndexOf(s: seq<int>, x: int): (i: nat)
    requires x in s
    ensures i < |s| && s[i] == x && forall k :: 0 <= k < i ==> s[k] != x
  {
    if s[0] == x then 0 else 1 + IndexOf(s[1..], x)
  }

  /** The source picks the neighbour at the first smallest distance, which is the rule of section 6.6. */
  lemma FirstMinimumIsPaeth(left: int, up: int, upperLeft: int)
    ensures var estimate := left + up - upperLeft;
            var distances := [Abs(estimate - left), Abs(estimate - up), Abs(estimate - upperLeft)];
            [left, up, upperLeft][IndexOf(distances, Min(distances))] == Paeth(left, up, upperLeft)
  {
    var estimate := left + up - upperLeft;
    var distances := [Abs(estimate - left), Abs(estimate - up), Abs(estimate - upperLeft)];
    var m := Min(distances);
    assert distances[0] in distances && distances[1] in distances && distances[2] in distances;
    var i := IndexOf(distances, m);
    assert i == 0 || i == 1 || i == 2;
  }

  // ---------------------------------------------------------------- one row

  /** The byte one pixel to the left, or zero. */
  function Back(row: Bytes, i: nat, channels: nat): byte
    requires i < |row| || (i == |row| && channels > 0)
  {
    if 0 < channels <= i then row[i - channels] else 0
  }

  function Prediction(kind: int, channels: nat, previous: Bytes, row: Bytes, i: nat): (p: int)
    requires 0 < channels && i < |previous| && i <= |row|
    ensures 0 <= p < 256
  {
    Predictor(kind, Back(row, i, channels), previous[i], Back(previous, i, channels))
  }

  /** Filtering: every byte minus its prediction from the original bytes. */
  function Filter(kind: int, channels: nat, previous: Bytes, row: Bytes): (filtered: Bytes)
    requires 0 < channels && |previous| == |row|
    ensures |filtered| == |row|
  {
    seq(|row|, i requires 0 <= i < |row| => (row[i] - Prediction(kind, channels, previous, row, i)) % 256)
  }

  /** Undoing it from the left, byte by byte. */
  function Unfilter(kind: int, channels: nat, previous: Bytes, filtered: Bytes): (row: Bytes)
    requires 0 < channels && |filtered| <= |previous|
    ensures |row| == |filtered|
  {
    if filtered == [] then []
    else
      var last := |filtered| - 1;
      var row := Unfilter(kind, channels, previous, filtered[..last]);
      row + [(filtered[last] + Prediction(kind, channels, previous, row, last)) % 256]
  }

  lemma {:induction false} UnfilterPrefix(kind: int, channels: nat, previous: Bytes, filtered: Bytes, n: nat)
    requires 0 < channels && n <= |filtered| <= |previous|
    ensures Unfilter(kind, channels, previous, filtered)[..n] == Unfilter(kind, channels, previous, filtered[..n])
  {
    if n < |filtered| {
      var last := |filtered| - 1;
      UnfilterPrefix(kind, channels, previous, filtered[..last], n);
      assert filtered[..last][..n] == filtered[..n];
    } else {
      assert filtered[..n] == filtered;
    }
  }

  lemma SameBack(a: Bytes, b: Bytes, i: nat, channels: nat)
    requires 0 < channels && i <= |a| && i <= |b| && a[..i] == b[..i]
    ensures Back(a, i, channels) == Back(b, i, channels)
  {
    if channels <= i {
      assert a[i - channels] == a[..i][i - channels] && b[i - channels] == b[..i][i - channels];
    }
  }

  /** Unfiltering inverts filtering, for every filter type, previous row and pixel size. */
  lemma {:induction false} UnfilterInverts(kind: int, channels: nat, previous: Bytes, row: Bytes, n: nat)
    requires 0 < channels && |previous| == |row| && n <= |row|
    ensures Unfilter(kind, channels, previous, Filter(kind, channels, previous, row)[..n]) == row[..n]
    decreases n
  {
    if n > 0 {
      var filtered := Filter(kind, channels, previous, row);
      UnfilterInverts(kind, channels, previous, row, n - 1);
      assert filtered[..n][..n - 1] == filtered[..n - 1];
      SameBack(row, row[..n - 1], n - 1, channels);
      ByteRestored(row[n - 1], Prediction(kind, channels, previous, row, n - 1));
      assert row[..n] == row[..n - 1] + [row[n - 1]];
    }
  }

  lemma ByteRestored(x: byte, p: int)
    requires 0 <= p < 256
    ensures ((x - p) % 256 + p) % 256 == x && ((x + p) % 256 - p) % 256 == x
  {
  }

  /** And filtering inverts unfiltering: no two filtered rows give the same pixels. */
  lemma {:induction false} FilterInverts(kind: int, channels: nat, previous: Bytes, filtered: Bytes)
    requires 0 < channels && |filtered| == |previous|
    ensures Filter(kind, channels, previous, Unfilter(kind, channels, previous, filtered)) == filtered
  {
    hide Predictor;
    var row := Unfilter(kind, channels, previous, filtered);
    forall i | 0 <= i < |row| ensures Filter(kind, channels, previous, row)[i] == filtered[i] {
      UnfilterPrefix(kind, channels, previous, filtered, i + 1);
      UnfilterPrefix(kind, channels, previous, filtered, i);
      assert filtered[..i + 1][..i] == filtered[..i];
      assert row[i] == row[..i + 1][i];
      SameBack(row, row[..i], i, channels);
      ByteRestored(filtered[i], Prediction(kind, channels, previous, row, i));
    }
  }

  /**
   Section 6 of RFC 2083, byte by byte: what is added back is nothing, the byte to the left, the byte above, the mean
   of both, or the neighbour that is closest to left + up - upper left, in this order when there are several.
   */
  lemma BytesRestored(kind: int, channels: nat, previous: Bytes, filtered: Bytes, i: nat)
    requires 0 <= kind <= 4 && 0 < channels && i < |filtered| <= |previous|
    ensures var row := Unfilter(kind, channels, previous, filtered);
            var left: int := if i < channels then 0 else row[i - channels];
            var corner: int := if i < channels then 0 else previous[i - channels];
            var up: int, estimate := previous[i], left + previous[i] - corner;
            var added: int := if kind == 0 then 0
                              else if kind == 1 then left
                              else if kind == 2 then up
                              else if kind == 3 then (left + up) / 2
                              else if Abs(estimate - left) <= Abs(estimate - up)
                                      && Abs(estimate - left) <= Abs(estimate - corner) then left
                              else if Abs(estimate - up) <= Abs(estimate - corner) then up
                              else corner;
            row[i] == (filtered[i] + added) % 256
  {
    hide Unfilter;
    UnfilterEnd(kind, channels, previous, filtered[..i + 1]);
    UnfilterPrefix(kind, channels, previous, filtered, i + 1);
    UnfilterPrefix(kind, channels, previous, filtered, i);
    var row := Unfilter(kind, channels, previous, filtered);
    assert filtered[..i + 1][..i] == filtered[..i];
    assert row[i] == row[..i + 1][i];
    SameBack(row, row[..i], i, channels);
  }

  /** The predictor as it is chosen for one byte. */
  method Predict(kind: int, left: byte, up: byte, upperLeft: byte) returns (predictor: int)
    requires 0 < kind <= 4
    ensures predictor == Predictor(kind, left, up, upperLeft)
  {
    if kind == 1 {
      predictor := left;
    } else if kind == 2 {
      predictor := up;
    } else if kind == 3 {
      predictor := (left + up) / 2;
    } else {
      FirstMinimumIsPaeth(left, up, upperLeft);
      var estimate: int := left as int + up - upperLeft;
      var distances := [Abs(estimate - left), Abs(estimate - up), Abs(estimate - upperLeft)];
      predictor := [left, up, upperLeft][IndexOf(distances, Min(distances))];
    }
  }

  /** The next byte of a row that is restored up to here. */
  lemma UnfilterNext(kind: int, channels: nat, previous: Bytes, filtered: Bytes, row: Bytes, index: nat)
    requires 0 < channels && index < |filtered| == |row| <= |previous|
    requires row[..index] == Unfilter(kind, channels, previous, filtered[..index]) && row[index..] == filtered[index..]
    ensures Unfilter(kind, channels, previous, filtered[..index + 1])
            == row[..index] + [(row[index] + Prediction(kind, channels, previous, row, index)) % 256]
  {
    assert row[index] == row[index..][0] == filtered[index];
    assert filtered[..index + 1][..index] == filtered[..index];
    SameBack(row, row[..index], index, channels);
  }

  lemma OneByte(before: Bytes, after: Bytes, filtered: Bytes, index: nat, b: byte)
    requires index < |before| == |filtered| && before[index..] == filtered[index..] && after == before[index := b]
    ensures after[..index + 1] == before[..index] + [b] && after[index + 1..] == filtered[index + 1..]
  {
    assert before[index..][1..] == filtered[index..][1..];
  }

  /** The loop over one row, in place. Type 0 leaves the row as it is. */
  method UnfilterRow(kind: int, channels: nat, previous: Bytes, row: array<byte>)
    requires 0 <= kind <= 4 && 0 < channels && |previous| == row.Length
    modifies row
    ensures row[..] == Unfilter(kind, channels, previous, old(row[..]))
  {
    ghost var filtered := row[..];
    if kind == 0 {
      UnfilterNone(channels, previous, filtered);
      return;
    }
    for index := 0 to row.Length
      invariant row[..index] == Unfilter(kind, channels, previous, filtered[..index])
      invariant row[index..] == filtered[index..]
    {
      ghost var before := row[..];
      UnfilterNext(kind, channels, previous, filtered, before, index);
      var left := if index >= channels then row[index - channels] else 0;
      var up := previous[index];
      var upperLeft := if index >= channels then previous[index - channels] else 0;
      var predictor := Predict(kind, left, up, upperLeft);
      row[index] := (row[index] as int + predictor) % 256;
      OneByte(before, row[..], filtered, index, row[index]);
    }
    assert filtered[..row.Length] == filtered && row[..row.Length] == row[..];
  }

  lemma {:induction false} UnfilterNone(channels: nat, previous: Bytes, filtered: Bytes)
    requires 0 < channels && |filtered| <= |previous|
    ensures Unfilter(0, channels, previous, filtered) == filtered
  {
    if filtered != [] {
      var last := |filtered| - 1;
      UnfilterNone(channels, previous, filtered[..last]);
      assert filtered == filtered[..last] + [filtered[last]];
    }
  }

  // ---------------------------------------------------------------- a whole image

  function Zeros(n: nat): Bytes { seq(n, _ => 0) }

  /** Above the first row there is nothing to add: a row filtered by the one above is stored as it is. */
  lemma {:induction false} NothingAbove(channels: nat, filtered: Bytes)
    requires 0 < channels
    ensures Unfilter(2, channels, Zeros(|filtered|), filtered) == filtered
  {
    var row := Unfilter(2, channels, Zeros(|filtered|), filtered);
    forall i | 0 <= i < |row| ensures row[i] == filtered[i] {
      BytesRestored(2, channels, Zeros(|filtered|), filtered, i);
    }
  }

  /** The rows as an encoder stores them: each behind the filter type chosen for it. */
  function Pack(kinds: seq<byte>, channels: nat, previous: Bytes, rows: seq<Bytes>): (raw: Bytes)
    requires 0 < channels && |kinds| == |rows| && forall row <- rows :: |row| == |previous|
    ensures |raw| == Size(|rows|, |previous| + 1)
  {
    if rows == [] then []
    else [kinds[0]] + Filter(kinds[0], channels, previous, rows[0]) + Pack(kinds[1..], channels, rows[0], rows[1..])
  }

  /** The rows without any filtering. */
  function Plain(rows: seq<Bytes>): Bytes { if rows == [] then [] else [0] + rows[0] + Plain(rows[1..]) }

  /** The length of so many lines. */
  function Size(height: nat, line: nat): nat { if height == 0 then 0 else line + Size(height - 1, line) }

  lemma {:induction false} SizeIsProduct(height: nat, line: nat)
    ensures Size(height, line) == line * height
  {
    if height > 0 { SizeIsProduct(height - 1, line); }
  }

  /** The decoding: one filter type and one row at a time, refusing an unknown type. */
  function Unpack(channels: nat, previous: Bytes, height: nat, raw: Bytes): (pixels: Option<Bytes>)
    requires 0 < channels && |raw| == Size(height, |previous| + 1)
    ensures pixels.Some? ==> |pixels.value| == |raw|
    decreases height
  {
    if height == 0 then Some([])
    else if raw[0] > 4 then None
    else
      var row := Unfilter(raw[0], channels, previous, raw[1..|previous| + 1]);
      Prepended(row, Unpack(channels, row, height - 1, raw[|previous| + 1..]))
  }

  /** Exactly the unknown filter types are refused. */
  lemma {:induction false} UnpackAccepts(channels: nat, previous: Bytes, line: nat, height: nat, raw: Bytes)
    requires 0 < channels && line == |previous| + 1 && |raw| == Size(height, line)
    ensures forall i :: 0 <= i < height ==> Size(i, line) < |raw|
    ensures Unpack(channels, previous, height, raw).Some? <==> forall i :: 0 <= i < height ==> raw[Size(i, line)] <= 4
    decreases height
  {
    hide Unfilter;
    forall i | 0 <= i < height ensures Size(i, line) < |raw| { SizeLess(i, height, line); }
    if height > 0 {
      assert Size(0, line) == 0;
      if raw[0] <= 4 {
        UnpackAccepts(channels, Unfilter(raw[0], channels, previous, raw[1..line]), line, height - 1, raw[line..]);
        LinesBehind(line, height, raw);
      } else {
        assert raw[Size(0, line)] > 4;
      }
    }
  }

  /** Where the other lines start. */
  lemma LinesBehind(line: nat, height: nat, raw: Bytes)
    requires 0 < line && 0 < height && |raw| == Size(height, line) && raw[0] <= 4
    requires forall i :: 0 <= i < height ==> Size(i, line) < |raw|
    requires forall i :: 0 <= i < height - 1 ==> Size(i, line) < |raw[line..]|
    ensures (forall i :: 0 <= i < height ==> raw[Size(i, line)] <= 4)
            <==> forall i :: 0 <= i < height - 1 ==> raw[line..][Size(i, line)] <= 4
  {
    if forall i :: 0 <= i < height - 1 ==> raw[line..][Size(i, line)] <= 4 {
      forall i | 0 <= i < height ensures raw[Size(i, line)] <= 4 {
        if i > 0 { assert raw[Size(i, line)] == raw[line..][Size(i - 1, line)]; }
      }
    } else {
      var i :| 0 <= i < height - 1 && raw[line..][Size(i, line)] > 4;
      assert Size(i + 1, line) == line + Size(i, line);
      assert raw[Size(i + 1, line)] > 4;
    }
  }

  lemma {:induction false} SizeLess(i: nat, height: nat, line: nat)
    requires i < height && line > 0
    ensures Size(i, line) < Size(height, line)
  {
    assert Size(height, line) == line + Size(height - 1, line);
    if i > 0 {
      assert Size(i, line) == line + Size(i - 1, line);
      SizeLess(i - 1, height - 1, line);
    }
  }

  /** The last byte of a row. */
  lemma UnfilterEnd(kind: int, channels: nat, previous: Bytes, filtered: Bytes)
    requires 0 < channels && 0 < |filtered| <= |previous|
    ensures var last := |filtered| - 1;
            var row := Unfilter(kind, channels, previous, filtered[..last]);
            Unfilter(kind, channels, previous, filtered)
            == row + [(filtered[last] + Prediction(kind, channels, previous, row, last)) % 256]
  {
  }

  function Prepended(row: Bytes, rest: Option<Bytes>): Option<Bytes> {
    if rest.None? then None else Some([0] + row + rest.value)
  }

  /** Every image comes back from every choice of filter types, row by row. */
  lemma {:induction false} UnpackInverts(kinds: seq<byte>, channels: nat, previous: Bytes, rows: seq<Bytes>)
    requires 0 < channels && |kinds| == |rows| && (forall i :: 0 <= i < |kinds| ==> kinds[i] <= 4)
    requires forall row <- rows :: |row| == |previous|
    ensures Unpack(channels, previous, |rows|, Pack(kinds, channels, previous, rows)) == Some(Plain(rows))
    decreases rows
  {
    hide Unfilter, Filter, Unpack;
    if rows == [] {
      UnpackNothing(channels, previous, 0, []);
    } else {
      var filtered := Filter(kinds[0], channels, previous, rows[0]);
      var rest := Pack(kinds[1..], channels, rows[0], rows[1..]);
      UnpackInverts(kinds[1..], channels, rows[0], rows[1..]);
      RowRestored(kinds[0], channels, previous, rows[0]);
      UnpackLine(channels, previous, |rows|, kinds[0], filtered, rest);
      assert Pack(kinds, channels, previous, rows) == [kinds[0]] + filtered + rest;
    }
  }

  /** One line in front of the others. */
  lemma UnpackLine(channels: nat, previous: Bytes, height: nat, kind: byte, filtered: Bytes, rest: Bytes)
    requires 0 < channels && 0 < height && |filtered| == |previous| && |rest| == Size(height - 1, |previous| + 1)
    ensures Unpack(channels, previous, height, [kind] + filtered + rest)
            == UnpackRest(channels, height, DecodedRow(kind, channels, previous, filtered), rest)
  {
    FirstLine(kind, filtered, rest);
  }

  function DecodedRow(kind: byte, channels: nat, previous: Bytes, filtered: Bytes): (row: Option<Bytes>)
    requires 0 < channels && |filtered| == |previous|
    ensures row.Some? ==> |row.value| == |previous|
  {
    if kind > 4 then None else Some(Unfilter(kind, channels, previous, filtered))
  }

  /** The decoding behind one row. */
  function UnpackRest(channels: nat, height: nat, row: Option<Bytes>, rest: Bytes): Option<Bytes>
    requires 0 < channels && 0 < height && (row.Some? ==> |rest| == Size(height - 1, |row.value| + 1))
  {
    if row.None? then None else Prepended(row.value, Unpack(channels, row.value, height - 1, rest))
  }

  lemma FirstLine(kind: byte, filtered: Bytes, rest: Bytes)
    ensures var raw, line := [kind] + filtered + rest, |filtered| + 1;
            raw[0] == kind && raw[1..line] == filtered && raw[line..] == rest
  {
  }

  lemma RowRestored(kind: int, channels: nat, previous: Bytes, row: Bytes)
    requires 0 < channels && |previous| == |row|
    ensures Unfilter(kind, channels, previous, Filter(kind, channels, previous, row)) == row
  {
    UnfilterInverts(kind, channels, previous, row, |row|);
    assert Filter(kind, channels, previous, row)[..|row|] == Filter(kind, channels, previous, row)
        && row[..|row|] == row;
  }

  /** Decoded pixels decode to themselves, whatever row comes before them. */
  lemma {:induction false} UnpackPlain(channels: nat, previous: Bytes, other: Bytes, height: nat, raw: Bytes)
    requires 0 < channels && |other| == |previous|
    requires |raw| == Size(height, |previous| + 1) && Unpack(channels, previous, height, raw).Some?
    ensures Unpack(channels, other, height, Unpack(channels, previous, height, raw).value)
            == Unpack(channels, previous, height, raw)
    decreases height
  {
    if height > 0 {
      var line := |previous| + 1;
      var row := Unfilter(raw[0], channels, previous, raw[1..line]);
      var rest := Unpack(channels, row, height - 1, raw[line..]).value;
      UnpackPlain(channels, row, row, height - 1, raw[line..]);
      UnfilterNone(channels, other, row);
      UnpackLine(channels, other, height, 0, row, rest);
    }
  }

  lemma UnpackNothing(channels: nat, previous: Bytes, height: nat, raw: Bytes)
    requires 0 < channels && raw == [] && |raw| == Size(height, |previous| + 1)
    ensures Unpack(channels, previous, height, raw) == Some([])
  {
  }

  /** The loop over all rows of the decompressed data. */
  method UnpackRows(channels: nat, stride: nat, height: nat, raw: Bytes) returns (pixels: Option<Bytes>)
    requires 0 < channels && |raw| == Size(height, stride + 1)
    ensures pixels == Unpack(channels, Zeros(stride), height, raw)
  {
    hide Unpack, Unfilter;
    var out: Bytes, previous, start := [], Zeros(stride), 0;
    ghost var left := height;
    ghost var all := Unpack(channels, previous, height, raw);
    assert Joined([], all) == all by { assert all.Some? ==> [] + all.value == all.value; }
    assert raw[0..] == raw;
    while start < |raw|
      invariant start <= |raw| && |previous| == stride && |raw[start..]| == Size(left, stride + 1)
      invariant all == Joined(out, Unpack(channels, previous, left, raw[start..]))
    {
      ghost var filtered, rest := raw[start + 1..start + 1 + stride], raw[start + stride + 1..];
      Line(raw, start, stride);
      UnpackLine(channels, previous, left, raw[start], filtered, rest);
      var row := DecodeRow(channels, previous, raw, start);
      if row.None? { return None; }
      JoinedRow(out, row.value, Unpack(channels, row.value, left - 1, rest));
      out := out + [0] + row.value;
      previous, start, left := row.value, start + stride + 1, left - 1;
    }
    UnpackNothing(channels, previous, left, raw[start..]);
    JoinedEnd(out);
    return Some(out);
  }

  /** One row: its filter type, and the bytes it stands for. */
  method DecodeRow(channels: nat, previous: Bytes, raw: Bytes, start: nat) returns (row: Option<Bytes>)
    requires 0 < channels && start + |previous| < |raw|
    ensures row == DecodedRow(raw[start], channels, previous, raw[start + 1..start + 1 + |previous|])
  {
    var kind := raw[start];
    if kind > 4 { return None; }
    var bytes := CopyRow(raw, start + 1, |previous|);
    UnfilterRow(kind, channels, previous, bytes);
    return Some(bytes[..]);
  }

  method CopyRow(raw: Bytes, start: nat, stride: nat) returns (row: array<byte>)
    requires start + stride <= |raw|
    ensures fresh(row) && row.Length == stride && row[..] == raw[start..start + stride]
  {
    row := new byte[stride](i requires 0 <= i < stride => raw[start + i]);
  }

  lemma Line(raw: Bytes, start: nat, stride: nat)
    requires start + stride < |raw|
    ensures raw[start..] == [raw[start]] + raw[start + 1..start + 1 + stride] + raw[start + stride + 1..]
  {
  }

  ghost function Joined(out: Bytes, rest: Option<Bytes>): Option<Bytes> {
    if rest.None? then None else Some(out + rest.value)
  }

  lemma JoinedRow(out: Bytes, row: Bytes, rest: Option<Bytes>)
    ensures Joined(out + [0] + row, rest) == Joined(out, Prepended(row, rest))
  {
    if rest.Some? { assert out + [0] + row + rest.value == out + ([0] + row + rest.value); }
  }

  lemma JoinedEnd(out: Bytes)
    ensures Joined(out, Some([])) == Some(out)
  {
    assert out + [] == out;
  }
}
