/** Reading a PNG down to its header and pixels, and writing it back with nothing else in it. */
module PngRewrite {
  import opened Bytes
  import opened Options
  import opened PngFilter

  const MAX_CONTENT := 32 * 1024 * 1024
  const MAX_SIDE := 16384
  const MAX_PIXELS := 16 * 1024 * 1024
  const WORD := 0x1_0000_0000
  const SIGNATURE: Bytes := [0x89, 0x50, 0x4e, 0x47, 0x0d, 0x0a, 0x1a, 0x0a]
  // Chunk names as words: the four letters, most significant first.
  const IHDR: word := 0x4948_4452
  const IDAT: word := 0x4944_4154
  const IEND: word := 0x4945_4e44
  const TRNS: word := 0x7452_4e53

  type word = x: int | 0 <= x < WORD

  /** What a decompressor has after one call: its output, whether the stream ended, and bytes behind or left over. */
  datatype Inflated = Inflated(raw: Bytes, eof: bool, unused: Bytes, tail: Bytes)

  /** Checksums and compression, which are a library of the source. */
  datatype Library = Library(crc: Bytes -> word, compress: Bytes -> Bytes, inflate: (Bytes, nat) -> Option<Inflated>) {
    /** Decompressing compressed bytes with room to spare gives them back, and nothing else. */
    ghost predicate Faithful() {
      forall s: Bytes, limit: nat :: |s| < limit ==> inflate(compress(s), limit) == Some(Inflated(s, true, [], []))
    }
  }

  // ---------------------------------------------------------------- words and chunks

  /** The lowest `count` bytes of a number, most significant first. */
  function Digits(n: nat, count: nat): (s: Bytes)
    ensures |s| == count
  {
    if count == 0 then [] else Digits(n / 256, count - 1) + [n % 256]
  }

  function Number(s: Bytes): nat { if s == [] then 0 else Number(s[..|s| - 1]) * 256 + s[|s| - 1] }

  function Power(count: nat): nat { if count == 0 then 1 else 256 * Power(count - 1) }

  lemma {:induction false} DigitsRead(n: nat, count: nat)
    requires n < Power(count)
    ensures Number(Digits(n, count)) == n
  {
    if count > 0 {
      DigitsRead(n / 256, count - 1);
      assert Digits(n, count)[..count - 1] == Digits(n / 256, count - 1);
    }
  }

  lemma {:induction false} NumberWritten(s: Bytes)
    ensures Number(s) < Power(|s|) && Digits(Number(s), |s|) == s
  {
    if s != [] {
      NumberWritten(s[..|s| - 1]);
      assert s == s[..|s| - 1] + [s[|s| - 1]];
    }
  }

  function Word(n: word): (s: Bytes)
    ensures |s| == 4
  {
    Digits(n, 4)
  }

  function ReadWord(s: Bytes): (n: word)
    requires |s| == 4
  {
    NumberWritten(s);
    FourBytes();
    Number(s)
  }

  lemma FourBytes()
    ensures Power(4) == WORD
  {
    assert Power(1) == 256 && Power(2) == 256 * 256;
  }

  lemma WordRead(n: word)
    ensures ReadWord(Word(n)) == n
  {
    FourBytes();
    DigitsRead(n, 4);
  }

  function Chunk(lib: Library, kind: word, data: Bytes): Bytes
    requires |data| < WORD
  {
    Word(|data|) + Word(kind) + data + Word(lib.crc(Word(kind) + data))
  }

  predicate IsLetter(b: byte) { 0x41 <= b <= 0x5a || 0x61 <= b <= 0x7a }

  predicate IsName(name: Bytes) { forall b <- name :: IsLetter(b) }

  /** One chunk and what follows it, when its length, name and checksum are right. */
  function ReadChunk(lib: Library, s: Bytes): (chunk: Option<(word, Bytes, Bytes)>)
    ensures chunk.Some? ==> |chunk.value.2| + 12 <= |s|
  {
    if |s| < 12 then None
    else
      var size, name := ReadWord(s[..4]), s[4..8];
      if 12 + size > |s| || !IsName(name) then None
      else
        var data := s[8..8 + size];
        if lib.crc(name + data) != ReadWord(s[8 + size..12 + size]) then None
        else Some((ReadWord(name), data, s[12 + size..]))
  }

  /** Every chunk of a stream that consists of chunks and nothing else. */
  function Chunks(lib: Library, s: Bytes): Option<seq<(word, Bytes)>>
    decreases |s|
  {
    if s == [] then Some([])
    else
      var chunk := ReadChunk(lib, s);
      if chunk.None? then None
      else
        var rest := Chunks(lib, chunk.value.2);
        if rest.None? then None else Some([(chunk.value.0, chunk.value.1)] + rest.value)
  }

  lemma ChunkRead(lib: Library, kind: word, data: Bytes, rest: Bytes)
    requires IsName(Word(kind)) && |data| < WORD
    ensures ReadChunk(lib, Chunk(lib, kind, data) + rest) == Some((kind, data, rest))
  {
    WordRead(|data|);
    WordRead(kind);
    WordRead(lib.crc(Word(kind) + data));
    ChunkParts(Word(|data|), Word(kind), data, Word(lib.crc(Word(kind) + data)), rest);
  }

  lemma ChunkParts(size: Bytes, name: Bytes, data: Bytes, sum: Bytes, rest: Bytes)
    requires |size| == |name| == |sum| == 4
    ensures var s := size + name + data + sum + rest;
            && s[..4] == size && s[4..8] == name && s[8..8 + |data|] == data
            && s[8 + |data|..12 + |data|] == sum && s[12 + |data|..] == rest
  {
  }

  // ---------------------------------------------------------------- the chunk walk

  predicate ValidHeader(data: Bytes) {
    && |data| == 13
    && 0 < Width(data) <= MAX_SIDE && 0 < Height(data) <= MAX_SIDE && Width(data) * Height(data) <= MAX_PIXELS
    && data[8] == 8 && (data[9] == 2 || data[9] == 6)
    && data[10] == 0 && data[11] == 0 && data[12] == 0
  }

  function Width(header: Bytes): nat
    requires |header| == 13
  {
    ReadWord(header[..4])
  }

  function Height(header: Bytes): nat
    requires |header| == 13
  {
    ReadWord(header[4..8])
  }

  function Channels(header: Bytes): (channels: nat)
    requires |header| == 13
    ensures channels > 0
  {
    if header[9] == 2 then 3 else 4
  }

  function Stride(header: Bytes): nat
    requires |header| == 13
  {
    Width(header) * Channels(header)
  }

  datatype Scan = Scan(header: Option<Bytes>, idat: Bytes, seen: bool, finished: bool)

  /** Bit 5 of the first letter. */
  predicate IsAncillary(kind: word) { Word(kind)[0] / 32 % 2 == 1 }

  /** One chunk before the end: the header first and once, image data without a gap, nothing else that matters. */
  function Take(scan: Scan, kind: word, data: Bytes): (next: Option<Scan>)
    ensures next.Some? ==> next.value.header.Some? && (scan.header.Some? ==> next.value.header == scan.header)
    ensures next.Some? && scan.header.None? ==> ValidHeader(next.value.header.value)
  {
    if scan.header.None? && kind != IHDR then None
    else if kind == IHDR then
      if scan.header.Some? || !ValidHeader(data) then None
      else Some(scan.(header := Some(data), finished := scan.finished || scan.seen))
    else if kind == IDAT then
      if scan.finished then None else Some(scan.(seen := true, idat := scan.idat + data))
    else if kind == TRNS || !IsAncillary(kind) then None
    else Some(scan.(finished := scan.finished || scan.seen))
  }

  /** The walk up to the end chunk. What lies behind it is ignored. */
  function Walk(lib: Library, s: Bytes, scan: Scan): (done: Option<Scan>)
    requires scan.header.Some? ==> ValidHeader(scan.header.value)
    ensures done.Some? ==> done.value.header.Some? && ValidHeader(done.value.header.value)
    decreases |s|
  {
    var chunk := ReadChunk(lib, s);
    if chunk.None? then None
    else
      var (kind, data, rest) := chunk.value;
      if kind == IEND then (if scan.header.Some? && data == [] && scan.seen then Some(scan) else None)
      else
        var next := Take(scan, kind, data);
        if next.None? then None else Walk(lib, rest, next.value)
  }

  const START := Scan(None, [], false, false)

  // ---------------------------------------------------------------- decoding and encoding

  datatype Image = Image(header: Bytes, pixels: Bytes)

  /** The length of the decompressed data: one filter type in front of each row. */
  function Expected(header: Bytes): (n: nat)
    requires |header| == 13
    ensures n == Size(Height(header), Stride(header) + 1)
  {
    SizeIsProduct(Height(header), Stride(header) + 1);
    (Stride(header) + 1) * Height(header)
  }

  function DecodePixels(lib: Library, header: Bytes, idat: Bytes): (pixels: Option<Bytes>)
    requires ValidHeader(header)
    ensures pixels.Some? ==> |pixels.value| == Expected(header)
  {
    var inflated := lib.inflate(idat, Expected(header) + 1);
    if inflated.None? || |inflated.value.raw| != Expected(header) || !inflated.value.eof
       || inflated.value.unused != [] || inflated.value.tail != [] then None
    else Unpack(Channels(header), Zeros(Stride(header)), Height(header), inflated.value.raw)
  }

  function Decode(lib: Library, content: Bytes): (image: Option<Image>)
    ensures image.Some? ==> ValidHeader(image.value.header)
  {
    if !(SIGNATURE <= content) || |content| > MAX_CONTENT then None
    else
      var scan := Walk(lib, content[8..], START);
      if scan.None? then None
      else
        var pixels := DecodePixels(lib, scan.value.header.value, scan.value.idat);
        if pixels.None? then None else Some(Image(scan.value.header.value, pixels.value))
  }

  /** The whole file: signature, header, one data chunk, end. A length that does not fit a word is an error. */
  function Encode(lib: Library, image: Image): Option<Bytes>
    requires ValidHeader(image.header)
  {
    var data := lib.compress(image.pixels);
    if |data| >= WORD then None
    else Some(SIGNATURE + (Chunk(lib, IHDR, image.header) + (Chunk(lib, IDAT, data) + Chunk(lib, IEND, []))))
  }

  function Rewrite(lib: Library, content: Bytes): Option<Bytes> {
    var image := Decode(lib, content);
    if image.None? then None else Encode(lib, image.value)
  }

  // ---------------------------------------------------------------- parse after print

  ghost predicate Sized(pieces: seq<Bytes>) { pieces == [] || (|pieces[0]| < WORD && Sized(pieces[1..])) }

  /** Image data in as many chunks as an encoder likes. */
  function Pieces(lib: Library, pieces: seq<Bytes>, rest: Bytes): Bytes
    requires Sized(pieces)
  {
    if pieces == [] then rest else Chunk(lib, IDAT, pieces[0]) + Pieces(lib, pieces[1..], rest)
  }

  function Flat(pieces: seq<Bytes>): Bytes { if pieces == [] then [] else pieces[0] + Flat(pieces[1..]) }

  lemma Names()
    ensures IsName(Word(IHDR)) && IsName(Word(IDAT)) && IsName(Word(IEND))
  {
    Named(0x49, 0x48, 0x44, 0x52, IHDR);
    Named(0x49, 0x44, 0x41, 0x54, IDAT);
    Named(0x49, 0x45, 0x4e, 0x44, IEND);
  }

  lemma Named(b0: byte, b1: byte, b2: byte, b3: byte, n: word)
    requires ((b0 * 256 + b1) * 256 + b2) * 256 + b3 == n
    requires IsLetter(b0) && IsLetter(b1) && IsLetter(b2) && IsLetter(b3)
    ensures IsName(Word(n))
  {
    hide Number;
    NumberOfOne(b0);
    NumberMore([b0], b1);
    NumberMore([b0, b1], b2);
    NumberMore([b0, b1, b2], b3);
    assert [b0] + [b1] == [b0, b1] && [b0, b1] + [b2] == [b0, b1, b2] && [b0, b1, b2] + [b3] == [b0, b1, b2, b3];
    NumberWritten([b0, b1, b2, b3]);
  }

  lemma NumberOfOne(b: byte)
    ensures Number([b]) == b
  {
    assert [b][..0] == [] && Number([]) == 0;
  }

  lemma NumberMore(s: Bytes, b: byte)
    ensures Number(s + [b]) == Number(s) * 256 + b
  {
    assert (s + [b])[..|s|] == s;
  }

  /** A walk over the end chunk, with what the scan has so far. */
  lemma {:induction false} EndWalked(lib: Library, scan: Scan, trail: Bytes)
    requires scan.header.Some? && ValidHeader(scan.header.value) && scan.seen
    ensures Walk(lib, Chunk(lib, IEND, []) + trail, scan) == Some(scan)
  {
    Names();
    ChunkRead(lib, IEND, [], trail);
  }

  lemma {:induction false} DataWalked(lib: Library, scan: Scan, data: Bytes, rest: Bytes)
    requires scan.header.Some? && ValidHeader(scan.header.value) && !scan.finished && |data| < WORD
    ensures Walk(lib, Chunk(lib, IDAT, data) + rest, scan)
            == Walk(lib, rest, scan.(seen := true, idat := scan.idat + data))
  {
    Names();
    ChunkRead(lib, IDAT, data, rest);
  }

  lemma HeaderWalked(lib: Library, header: Bytes, rest: Bytes)
    requires ValidHeader(header)
    ensures Walk(lib, Chunk(lib, IHDR, header) + rest, START) == Walk(lib, rest, START.(header := Some(header)))
  {
    Names();
    ChunkRead(lib, IHDR, header, rest);
  }

  lemma {:induction false} PiecesWalked(lib: Library, scan: Scan, pieces: seq<Bytes>, trail: Bytes)
    requires scan.header.Some? && ValidHeader(scan.header.value) && !scan.finished
    requires Sized(pieces) && (scan.seen || pieces != [])
    ensures Walk(lib, Pieces(lib, pieces, Chunk(lib, IEND, []) + trail), scan)
            == Some(scan.(idat := scan.idat + Flat(pieces), seen := true))
    decreases pieces
  {
    if pieces == [] {
      EndWalked(lib, scan, trail);
      assert scan.idat + [] == scan.idat;
    } else {
      var next := scan.(seen := true, idat := scan.idat + pieces[0]);
      Associative(scan.idat, pieces[0], Flat(pieces[1..]));
      PiecesWalked(lib, next, pieces[1..], trail);
      DataWalked(lib, scan, pieces[0], Pieces(lib, pieces[1..], Chunk(lib, IEND, []) + trail));
    }
  }

  lemma Associative(a: Bytes, b: Bytes, c: Bytes)
    ensures a + b + c == a + (b + c)
  {
  }

  /** A file in the order every PNG encoder writes: header, data chunks, end. */
  function Document(lib: Library, header: Bytes, pieces: seq<Bytes>, trail: Bytes): Bytes
    requires |header| < WORD && Sized(pieces)
  {
    SIGNATURE + (Chunk(lib, IHDR, header) + Pieces(lib, pieces, Chunk(lib, IEND, []) + trail))
  }

  lemma Signed(rest: Bytes)
    ensures SIGNATURE <= SIGNATURE + rest && (SIGNATURE + rest)[8..] == rest
  {
  }

  lemma DocumentWalked(lib: Library, header: Bytes, pieces: seq<Bytes>, trail: Bytes)
    requires ValidHeader(header) && pieces != [] && Sized(pieces)
    ensures var content := Document(lib, header, pieces, trail);
            && SIGNATURE <= content
            && Walk(lib, content[8..], START) == Some(Scan(Some(header), Flat(pieces), true, false))
  {
    var rest := Pieces(lib, pieces, Chunk(lib, IEND, []) + trail);
    Signed(Chunk(lib, IHDR, header) + rest);
    HeaderWalked(lib, header, rest);
    PiecesWalked(lib, START.(header := Some(header)), pieces, trail);
    assert [] + Flat(pieces) == Flat(pieces);
  }

  /** What the writer makes is such a file, with one data chunk. */
  lemma {:induction false} EncodedIsDocument(lib: Library, image: Image)
    requires ValidHeader(image.header)
    ensures Encode(lib, image).Some? <==> |lib.compress(image.pixels)| < WORD
    ensures Encode(lib, image).Some? ==>
              Sized([lib.compress(image.pixels)])
              && Encode(lib, image) == Some(Document(lib, image.header, [lib.compress(image.pixels)], []))
  {
    var data, end := lib.compress(image.pixels), Chunk(lib, IEND, []);
    if |data| < WORD {
      assert Sized([data]);
      assert end + [] == end;
      assert Pieces(lib, [data], end) == Chunk(lib, IDAT, data) + end;
    }
  }

  lemma ChunksStep(lib: Library, kind: word, data: Bytes, rest: Bytes, chunks: seq<(word, Bytes)>)
    requires IsName(Word(kind)) && |data| < WORD && Chunks(lib, rest) == Some(chunks)
    ensures Chunks(lib, Chunk(lib, kind, data) + rest) == Some([(kind, data)] + chunks)
  {
    ChunkRead(lib, kind, data, rest);
  }

  /** The output holds a header chunk, one data chunk and an end chunk, and nothing else. */
  lemma {:induction false} OnlyThreeChunks(lib: Library, image: Image)
    requires ValidHeader(image.header) && Encode(lib, image).Some?
    ensures var out := Encode(lib, image).value;
            && SIGNATURE <= out
            && Chunks(lib, out[8..]) == Some([(IHDR, image.header), (IDAT, lib.compress(image.pixels)), (IEND, [])])
  {
    var header, data := image.header, lib.compress(image.pixels);
    var end: Bytes := Chunk(lib, IEND, []);
    ThreeChunks(lib, header, data);
    Signed(Chunk(lib, IHDR, header) + (Chunk(lib, IDAT, data) + end));
  }

  lemma ThreeChunks(lib: Library, header: Bytes, data: Bytes)
    requires |header| < WORD && |data| < WORD
    ensures Chunks(lib, Chunk(lib, IHDR, header) + (Chunk(lib, IDAT, data) + Chunk(lib, IEND, [])))
            == Some([(IHDR, header), (IDAT, data), (IEND, [])])
  {
    var last: seq<(word, Bytes)> := [(IEND, [])];
    var ends, datas := Chunk(lib, IEND, []), Chunk(lib, IDAT, data) + Chunk(lib, IEND, []);
    LastChunk(lib);
    assert Chunks(lib, datas) == Some([(IDAT, data)] + last) by {
      Names();
      ChunksStep(lib, IDAT, data, ends, last);
    }
    FirstChunk(lib, header, datas, [(IDAT, data)] + last);
    assert [(IHDR, header)] + ([(IDAT, data)] + last) == [(IHDR, header), (IDAT, data), (IEND, [])];
  }

  lemma FirstChunk(lib: Library, header: Bytes, rest: Bytes, chunks: seq<(word, Bytes)>)
    requires |header| < WORD && Chunks(lib, rest) == Some(chunks)
    ensures Chunks(lib, Chunk(lib, IHDR, header) + rest) == Some([(IHDR, header)] + chunks)
  {
    Names();
    ChunksStep(lib, IHDR, header, rest, chunks);
  }

  lemma LastChunk(lib: Library)
    ensures Chunks(lib, Chunk(lib, IEND, [])) == Some([(IEND, [])])
  {
    Names();
    ChunksStep(lib, IEND, [], [], []);
    var last: seq<(word, Bytes)>, end := [(IEND, [])], Chunk(lib, IEND, []);
    assert end + [] == end && last + [] == last;
  }

  /** Compressed pixels come back through the decompressor. */
  lemma StoredPixels(lib: Library, header: Bytes, stored: Bytes)
    requires lib.Faithful() && ValidHeader(header) && |stored| == Expected(header)
    ensures DecodePixels(lib, header, lib.compress(stored))
            == Unpack(Channels(header), Zeros(Stride(header)), Height(header), stored)
  {
  }

  /**
   Reading is faithful to any encoder: whatever filter it chose for each row and however it cut the
   compressed data into chunks, the image read is its header and its rows.
   */
  lemma {:induction false} EncoderUndone(lib: Library, header: Bytes, kinds: seq<byte>, rows: seq<Bytes>,
          pieces: seq<Bytes>, trail: Bytes)
    requires lib.Faithful() && ValidHeader(header) && |kinds| == |rows| == Height(header)
    requires forall i :: 0 <= i < |kinds| ==> kinds[i] <= 4
    requires forall row <- rows :: |row| == Stride(header)
    requires pieces != [] && Sized(pieces)
    ensures Flat(pieces) == lib.compress(Pack(kinds, Channels(header), Zeros(Stride(header)), rows))
            && |Document(lib, header, pieces, trail)| <= MAX_CONTENT
            ==> Decode(lib, Document(lib, header, pieces, trail)) == Some(Image(header, Plain(rows)))
  {
    hide Decode, Document, Unpack, DecodePixels, Flat;
    var stored := Pack(kinds, Channels(header), Zeros(Stride(header)), rows);
    StoredPixels(lib, header, stored);
    UnpackInverts(kinds, Channels(header), Zeros(Stride(header)), rows);
    if Flat(pieces) == lib.compress(stored) {
      DecodeDocument(lib, header, pieces, trail);
    }
  }

  /** What is read of such a file: its header, and the pixels behind its data. */
  lemma {:induction false} DecodeDocument(lib: Library, header: Bytes, pieces: seq<Bytes>, trail: Bytes)
    requires ValidHeader(header) && pieces != [] && Sized(pieces)
    ensures var content, pixels := Document(lib, header, pieces, trail), DecodePixels(lib, header, Flat(pieces));
            |content| <= MAX_CONTENT ==>
                Decode(lib, content) == if pixels.None? then None else Some(Image(header, pixels.value))
  {
    DocumentWalked(lib, header, pieces, trail);
  }

  /** Pixels that were read once are stored unfiltered and read the same again. */
  lemma DecodedPixelsAgain(lib: Library, header: Bytes, idat: Bytes)
    requires lib.Faithful() && ValidHeader(header) && DecodePixels(lib, header, idat).Some?
    ensures DecodePixels(lib, header, lib.compress(DecodePixels(lib, header, idat).value))
            == DecodePixels(lib, header, idat)
  {
    var raw := lib.inflate(idat, Expected(header) + 1).value.raw;
    UnpackPlain(Channels(header), Zeros(Stride(header)), Zeros(Stride(header)), Height(header), raw);
    StoredPixels(lib, header, DecodePixels(lib, header, idat).value);
  }

  /** Parse after print: the output reads as the same header and pixels, exactly when it is short enough to be read. */
  lemma {:induction false} RewriteReadsTheSame(lib: Library, content: Bytes)
    requires lib.Faithful()
    ensures var out := Rewrite(lib, content);
            out.Some? ==> Decode(lib, out.value) == if |out.value| <= MAX_CONTENT then Decode(lib, content) else None
  {
    if Rewrite(lib, content).Some? {
      var image, scan := Decode(lib, content).value, Walk(lib, content[8..], START).value;
      EncodedIsDocument(lib, image);
      DecodeDocument(lib, image.header, [lib.compress(image.pixels)], []);
      assert Flat([lib.compress(image.pixels)]) == lib.compress(image.pixels);
      DecodedPixelsAgain(lib, image.header, scan.idat);
    }
  }

  /** So the rewrite is idempotent exactly while its output stays within the input limit. */
  lemma {:induction false} RewriteIdempotent(lib: Library, content: Bytes)
    requires lib.Faithful()
    ensures var out := Rewrite(lib, content);
            out.Some? ==> (Rewrite(lib, out.value) == out <==> |out.value| <= MAX_CONTENT)
  {
    RewriteReadsTheSame(lib, content);
  }

  // ---------------------------------------------------------------- an output that is too long

  /** A faithful compressor that pads everything by the whole limit. Shorter data decompresses to itself. */
  function Padding(): Library {
    Library((s: Bytes) => 0, (s: Bytes) => s + Zeros(MAX_CONTENT),
            (s: Bytes, limit: nat) => Some(Inflated(Unpadded(s), true, [], [])))
  }

  function Unpadded(s: Bytes): Bytes { if |s| < MAX_CONTENT then s else s[..|s| - MAX_CONTENT] }

  lemma PaddingFaithful()
    ensures Padding().Faithful()
  {
    forall s: Bytes ensures Unpadded(s + Zeros(MAX_CONTENT)) == s {
      assert (s + Zeros(MAX_CONTENT))[..|s|] == s;
    }
  }

  /** The header of one pixel in three colors. */
  function OnePixel(): Bytes { Word(1) + Word(1) + [8, 2, 0, 0, 0] }

  lemma OnePixelValid()
    ensures ValidHeader(OnePixel())
    ensures Height(OnePixel()) == 1 && Channels(OnePixel()) == Stride(OnePixel()) == 3
  {
    WordRead(1);
    assert OnePixel()[..4] == Word(1) && OnePixel()[4..8] == Word(1);
  }

  /** A file of one pixel decodes. */
  lemma TinyDecodes(content: Bytes, stored: Bytes)
    requires ValidHeader(OnePixel()) && Height(OnePixel()) == 1 && Channels(OnePixel()) == Stride(OnePixel()) == 3
    requires stored == Pack([0], 3, Zeros(3), [Zeros(3)]) && |stored| == 4
    requires content == Document(Padding(), OnePixel(), [stored], []) && |content| <= MAX_CONTENT
    ensures Decode(Padding(), content) == Some(Image(OnePixel(), Plain([Zeros(3)])))
  {
    hide Decode, Document, Unpack, Pack, OnePixel, Plain;
    UnpackInverts([0], 3, Zeros(3), [Zeros(3)]);
    assert Flat([stored]) == stored;
    DecodeDocument(Padding(), OnePixel(), [stored], []);
  }

  /** What is written is longer than its compressed pixels. */
  lemma OutputLength(lib: Library, image: Image)
    requires ValidHeader(image.header) && Encode(lib, image).Some?
    ensures |Encode(lib, image).value| > |lib.compress(image.pixels)|
  {
  }

  /** The condition matters: one pixel, padded by its compressor, is rewritten to a file that cannot be read again. */
  lemma OverlongOutput()
    ensures exists lib: Library, content ::
              lib.Faithful() && Rewrite(lib, content).Some? && Rewrite(lib, Rewrite(lib, content).value).None?
  {
    hide Decode, Pack, Plain;
    OnePixelValid();
    PaddingFaithful();
    var stored := Pack([0], 3, Zeros(3), [Zeros(3)]);
    assert |stored| == 4 by { OneLine(3); }
    var content := Document(Padding(), OnePixel(), [stored], []);
    TinyLength(stored);
    TinyDecodes(content, stored);
    var pixels := Plain([Zeros(3)]);
    assert |pixels| == 4 by { PlainLine(Zeros(3)); }
    assert |Padding().compress(pixels)| == 4 + MAX_CONTENT;
    OutputLength(Padding(), Image(OnePixel(), pixels));
    TooLong(Padding(), Rewrite(Padding(), content).value);
  }

  lemma OneLine(stride: nat)
    ensures Size(1, stride + 1) == stride + 1
  {
    assert Size(0, stride + 1) == 0;
  }

  lemma PlainLine(row: Bytes)
    ensures |Plain([row])| == |row| + 1
  {
    assert Plain([row][1..]) == [];
  }

  lemma TinyLength(stored: Bytes)
    requires ValidHeader(OnePixel()) && |stored| == 4
    ensures |Document(Padding(), OnePixel(), [stored], [])| <= MAX_CONTENT
  {
    hide OnePixel;
    assert Pieces(Padding(), [stored][1..], Chunk(Padding(), IEND, []) + []) == Chunk(Padding(), IEND, []) + [];
  }

  lemma TooLong(lib: Library, content: Bytes)
    requires |content| > MAX_CONTENT
    ensures Rewrite(lib, content).None?
  {
  }

  // ---------------------------------------------------------------- exactly what is accepted

  lemma WordWritten(s: Bytes)
    requires |s| == 4
    ensures Word(ReadWord(s)) == s
  {
    NumberWritten(s);
  }

  /** What is read as a chunk was written as one: its length, its name in letters, its data and their checksum. */
  lemma ChunkSound(lib: Library, s: Bytes)
    requires ReadChunk(lib, s).Some?
    ensures var (kind, data, rest) := ReadChunk(lib, s).value;
            && |data| < WORD && (forall b <- Word(kind) :: 0x41 <= b <= 0x5a || 0x61 <= b <= 0x7a)
            && s == Word(|data|) + Word(kind) + data + Word(lib.crc(Word(kind) + data)) + rest
  {
    var size := ReadWord(s[..4]);
    WordWritten(s[..4]);
    WordWritten(s[4..8]);
    WordWritten(s[8 + size..12 + size]);
    assert s == s[..4] + s[4..8] + s[8..8 + size] + s[8 + size..12 + size] + s[12 + size..];
  }

  ghost predicate Fit(chunks: seq<(word, Bytes)>) { forall c <- chunks :: |c.1| < WORD }

  /** Chunks one behind the other, as they are written. */
  function Printed(lib: Library, chunks: seq<(word, Bytes)>): Bytes
    requires Fit(chunks)
  {
    if chunks == [] then [] else Chunk(lib, chunks[0].0, chunks[0].1) + Printed(lib, chunks[1..])
  }

  /** The data of the image chunks, one behind the other. */
  function ImageData(chunks: seq<(word, Bytes)>): Bytes {
    if chunks == [] then [] else (if chunks[0].0 == IDAT then chunks[0].1 else []) + ImageData(chunks[1..])
  }

  /** A chunk that may stand between the header and the end. */
  ghost predicate Inner(kind: word) {
    && IsName(Word(kind)) && kind != IHDR && kind != IEND
    && (kind == IDAT || (kind != TRNS && IsAncillary(kind)))
  }

  /** The image chunks are those from `first` to `end`. */
  ghost predicate Together(chunks: seq<(word, Bytes)>, first: nat, end: nat) {
    && first <= end <= |chunks|
    && forall i :: 0 <= i < |chunks| ==> (chunks[i].0 == IDAT <==> first <= i < end)
  }

  /** Where the image chunks may stand behind what was scanned so far. */
  ghost predicate Continues(scan: Scan, first: nat, end: nat) {
    if scan.finished then first == end else if scan.seen then first == 0 else first < end
  }

  ghost predicate Scanning(scan: Scan) {
    scan.header.Some? && ValidHeader(scan.header.value) && (scan.finished ==> scan.seen)
  }

  /** What one more chunk does to a scan behind the header. */
  lemma TakeMeans(scan: Scan, kind: word, data: Bytes)
    requires Scanning(scan) && IsName(Word(kind)) && kind != IEND
    ensures Take(scan, kind, data).Some? <==> Inner(kind) && (kind == IDAT ==> !scan.finished)
    ensures Take(scan, kind, data).Some? ==>
              Take(scan, kind, data).value
              == if kind == IDAT then scan.(seen := true, idat := scan.idat + data)
                 else scan.(finished := scan.finished || scan.seen)
  {
  }

  /** What the scan after one more chunk of this kind may be followed by, and in whose place. */
  predicate After(scan: Scan, next: Scan, kind: word) {
    if kind == IDAT then !scan.finished && next.seen && !next.finished
    else next.seen == scan.seen && next.finished == (scan.finished || scan.seen)
  }

  /** The place of the image chunks with one more chunk in front. */
  lemma PlaceInFront(scan: Scan, next: Scan, one: (word, Bytes), later: seq<(word, Bytes)>, from: nat, to: nat)
    returns (first: nat, end: nat)
    requires After(scan, next, one.0) && (scan.finished ==> scan.seen)
    requires Together(later, from, to) && Continues(next, from, to)
    ensures Together([one] + later, first, end) && Continues(scan, first, end)
  {
    if one.0 == IDAT {
      first, end := 0, to + 1;
    } else if scan.seen {
      first, end := 0, 0;
    } else {
      first, end := from + 1, to + 1;
    }
    var all := [one] + later;
    forall i | 0 <= i < |all| ensures all[i].0 == IDAT <==> first <= i < end {
      assert i > 0 ==> all[i] == later[i - 1];
    }
  }

  /** And without the one in front. */
  lemma PlaceBehind(scan: Scan, next: Scan, chunks: seq<(word, Bytes)>, first: nat, end: nat)
    returns (from: nat, to: nat)
    requires chunks != [] && Together(chunks, first, end) && Continues(scan, first, end)
    requires (scan.finished ==> scan.seen) && (chunks[0].0 == IDAT ==> !scan.finished)
    requires After(scan, next, chunks[0].0)
    ensures Together(chunks[1..], from, to) && Continues(next, from, to)
  {
    from, to := if first == 0 then 0 else first - 1, if end == 0 then 0 else end - 1;
    if first == end { from, to := 0, 0; }
    assert forall i :: 0 <= i < |chunks[1..]| ==> chunks[1..][i] == chunks[i + 1];
  }

  lemma {:induction false} WalkSound(lib: Library, s: Bytes, scan: Scan)
    returns (chunks: seq<(word, Bytes)>, first: nat, end: nat, trail: Bytes)
    requires Scanning(scan) && Walk(lib, s, scan).Some?
    ensures Fit(chunks) && (forall c <- chunks :: Inner(c.0)) && Together(chunks, first, end)
    ensures Continues(scan, first, end)
    ensures s == Printed(lib, chunks) + (Chunk(lib, IEND, []) + trail)
    ensures Walk(lib, s, scan).value.header == scan.header
    ensures Walk(lib, s, scan).value.idat == scan.idat + ImageData(chunks)
    decreases |s|
  {
    hide ReadChunk, Inner, Take, ValidHeader, Chunk, Word, ReadWord;
    var (kind, data, rest) := ReadChunk(lib, s).value;
    ReadIsPrinted(lib, s);
    if kind == IEND {
      chunks, first, end, trail := [], 0, 0, rest;
      assert Printed(lib, chunks) + (Chunk(lib, IEND, []) + trail) == s;
      assert scan.idat + [] == scan.idat;
    } else {
      TakeMeans(scan, kind, data);
      var next := Take(scan, kind, data).value;
      var later, from, to, behind := WalkSound(lib, rest, next);
      chunks, trail := [(kind, data)] + later, behind;
      first, end := PlaceInFront(scan, next, (kind, data), later, from, to);
      InFront(lib, kind, data, later, Chunk(lib, IEND, []) + trail, scan.idat);
    }
  }

  lemma ReadIsPrinted(lib: Library, s: Bytes)
    requires ReadChunk(lib, s).Some?
    ensures var (kind, data, rest) := ReadChunk(lib, s).value;
            |data| < WORD && IsName(Word(kind)) && s == Chunk(lib, kind, data) + rest
  {
    ChunkSound(lib, s);
  }

  /** One chunk in front of the others, printed and read. */
  lemma InFront(lib: Library, kind: word, data: Bytes, later: seq<(word, Bytes)>, last: Bytes, idat: Bytes)
    requires |data| < WORD && Fit(later)
    ensures Printed(lib, [(kind, data)] + later) + last == Chunk(lib, kind, data) + (Printed(lib, later) + last)
    ensures idat + ImageData([(kind, data)] + later) == (if kind == IDAT then idat + data else idat) + ImageData(later)
  {
    hide Chunk;
    assert ([(kind, data)] + later)[1..] == later;
    assert idat + ([] + ImageData(later)) == idat + ImageData(later);
  }

  lemma {:induction false} WalkComplete(lib: Library, scan: Scan, chunks: seq<(word, Bytes)>, first: nat, end: nat,
          trail: Bytes)
    requires Scanning(scan) && Fit(chunks) && (forall c <- chunks :: Inner(c.0)) && Together(chunks, first, end)
    requires Continues(scan, first, end)
    ensures var done := Walk(lib, Printed(lib, chunks) + (Chunk(lib, IEND, []) + trail), scan);
            done.Some? && done.value.header == scan.header && done.value.idat == scan.idat + ImageData(chunks)
    decreases |chunks|
  {
    hide Take, ReadChunk, ValidHeader, Chunk;
    var last: Bytes := Chunk(lib, IEND, []) + trail;
    if chunks == [] {
      assert Printed(lib, chunks) + last == last && scan.idat + [] == scan.idat;
      EndWalked(lib, scan, trail);
    } else {
      var (kind, data) := chunks[0];
      var rest := Printed(lib, chunks[1..]) + last;
      assert Inner(kind);
      ChunkRead(lib, kind, data, rest);
      TakeMeans(scan, kind, data);
      var next := Take(scan, kind, data).value;
      var from, to := PlaceBehind(scan, next, chunks, first, end);
      WalkComplete(lib, next, chunks[1..], from, to, trail);
      assert chunks == [(kind, data)] + chunks[1..];
      InFront(lib, kind, data, chunks[1..], last, scan.idat);
    }
  }

  /** The header, byte by byte: bounded sides, eight bits a channel, three or four colors, no interlacing. */
  lemma HeaderMeans(data: Bytes)
    ensures ValidHeader(data) <==>
              && |data| == 13
              && 0 < Number(data[..4]) <= 16384 && 0 < Number(data[4..8]) <= 16384
              && Number(data[..4]) * Number(data[4..8]) <= 16 * 1024 * 1024
              && (data[8..] == [8, 2, 0, 0, 0] || data[8..] == [8, 6, 0, 0, 0])
  {
  }

  /**
   Exactly what is accepted. A file is rewritten only if it is the signature, a valid header, sound chunks and an empty
   end chunk, whatever follows. Between header and end stand an unbroken run of image chunks, and otherwise only
   ancillary chunks, none of which is transparency. The image data inflates to exactly its rows, each of a known type.
   */
  lemma AcceptedFile(lib: Library, content: Bytes)
    returns (header: Bytes, chunks: seq<(word, Bytes)>, first: nat, end: nat, trail: Bytes, raw: Bytes)
    requires Rewrite(lib, content).Some?
    ensures |content| <= 32 * 1024 * 1024 && |header| == 13 && Fit(chunks)
    ensures content == [0x89, 0x50, 0x4e, 0x47, 0x0d, 0x0a, 0x1a, 0x0a]
                       + (Chunk(lib, 0x4948_4452, header)
                          + (Printed(lib, chunks) + (Chunk(lib, 0x4945_4e44, []) + trail)))
    ensures 0 < Number(header[..4]) <= 16384 && 0 < Number(header[4..8]) <= 16384
    ensures Number(header[..4]) * Number(header[4..8]) <= 16 * 1024 * 1024
    ensures header[8..] == [8, 2, 0, 0, 0] || header[8..] == [8, 6, 0, 0, 0]
    ensures 0 <= first < end <= |chunks|
    ensures forall i :: 0 <= i < |chunks| ==> (chunks[i].0 == 0x4944_4154 <==> first <= i < end)
    ensures forall c <- chunks ::
              && (forall b <- Word(c.0) :: 0x41 <= b <= 0x5a || 0x61 <= b <= 0x7a)
              && c.0 != 0x4948_4452 && c.0 != 0x4945_4e44 && c.0 != 0x7452_4e53
              && (c.0 == 0x4944_4154 || Word(c.0)[0] >= 0x61)
    ensures lib.inflate(ImageData(chunks), |raw| + 1) == Some(Inflated(raw, true, [], []))
    ensures var line := Number(header[..4]) * (if header[9] == 2 then 3 else 4) + 1;
            && |raw| == line * Number(header[4..8])
            && forall i :: 0 <= i < Number(header[4..8]) ==> Size(i, line) < |raw| && raw[Size(i, line)] <= 4
  {
    hide Walk, ReadChunk, Take, Unpack, Chunk, Printed;
    var scan := Walk(lib, content[8..], START).value;
    header := scan.header.value;
    HeaderMeans(header);
    chunks, first, end, trail := WalkFromStart(lib, content[8..]);
    forall c <- chunks ensures c.0 == IDAT || Word(c.0)[0] >= 0x61 { FirstLetter(c.0); }
    assert content == content[..8] + content[8..];
    raw := lib.inflate(scan.idat, Expected(header) + 1).value.raw;
    UnpackAccepts(Channels(header), Zeros(Stride(header)), Stride(header) + 1, Height(header), raw);
  }

  /** An ancillary name starts with a small letter. */
  lemma FirstLetter(kind: word)
    requires Inner(kind)
    ensures kind == IDAT || Word(kind)[0] >= 0x61
  {
    assert Word(kind)[0] in Word(kind);
  }

  lemma WalkFromStart(lib: Library, s: Bytes)
    returns (chunks: seq<(word, Bytes)>, first: nat, end: nat, trail: Bytes)
    requires Walk(lib, s, START).Some?
    ensures Fit(chunks) && (forall c <- chunks :: Inner(c.0)) && Together(chunks, first, end) && first < end
    ensures var scan := Walk(lib, s, START).value;
            && ValidHeader(scan.header.value) && scan.idat == ImageData(chunks)
            && s == Chunk(lib, IHDR, scan.header.value) + (Printed(lib, chunks) + (Chunk(lib, IEND, []) + trail))
  {
    hide ReadChunk, ValidHeader, Chunk, Printed;
    var (kind, data, rest) := ReadChunk(lib, s).value;
    ReadIsPrinted(lib, s);
    chunks, first, end, trail := WalkSound(lib, rest, START.(header := Some(data)));
    assert [] + ImageData(chunks) == ImageData(chunks);
  }

  /** And every such file is, as long as its compressed pixels fit a chunk. */
  lemma SoundFileIsRewritten(lib: Library, header: Bytes, chunks: seq<(word, Bytes)>, first: nat, end: nat,
          trail: Bytes, raw: Bytes)
    requires |header| == 13 && Fit(chunks)
    requires 0 < Number(header[..4]) <= 16384 && 0 < Number(header[4..8]) <= 16384
    requires Number(header[..4]) * Number(header[4..8]) <= 16 * 1024 * 1024
    requires header[8..] == [8, 2, 0, 0, 0] || header[8..] == [8, 6, 0, 0, 0]
    requires 0 <= first < end <= |chunks|
    requires forall i :: 0 <= i < |chunks| ==> (chunks[i].0 == 0x4944_4154 <==> first <= i < end)
    requires forall c <- chunks ::
               && (forall b <- Word(c.0) :: 0x41 <= b <= 0x5a || 0x61 <= b <= 0x7a)
               && c.0 != 0x4948_4452 && c.0 != 0x4945_4e44 && c.0 != 0x7452_4e53
               && (c.0 == 0x4944_4154 || Word(c.0)[0] >= 0x61)
    requires lib.inflate(ImageData(chunks), |raw| + 1) == Some(Inflated(raw, true, [], []))
    requires var line := Number(header[..4]) * (if header[9] == 2 then 3 else 4) + 1;
             && |raw| == line * Number(header[4..8])
             && forall i :: 0 <= i < Number(header[4..8]) ==> Size(i, line) < |raw| && raw[Size(i, line)] <= 4
    ensures var content := SIGNATURE + (Chunk(lib, IHDR, header)
                                        + (Printed(lib, chunks) + (Chunk(lib, IEND, []) + trail)));
            |content| <= 32 * 1024 * 1024 ==>
              && Decode(lib, content).Some? && Decode(lib, content).value.header == header
              && (|lib.compress(Decode(lib, content).value.pixels)| < WORD <==> Rewrite(lib, content).Some?)
  {
    hide Walk, ReadChunk, Take, Unpack, Chunk, Printed;
    HeaderMeans(header);
    var rest := Printed(lib, chunks) + (Chunk(lib, IEND, []) + trail);
    Signed(Chunk(lib, IHDR, header) + rest);
    HeaderWalked(lib, header, rest);
    forall c <- chunks ensures Inner(c.0) { SmallLetter(c.0); }
    WalkComplete(lib, START.(header := Some(header)), chunks, first, end, trail);
    assert [] + ImageData(chunks) == ImageData(chunks);
    SizeIsProduct(Height(header), Stride(header) + 1);
    UnpackAccepts(Channels(header), Zeros(Stride(header)), Stride(header) + 1, Height(header), raw);
  }

  lemma SmallLetter(kind: word)
    requires forall b <- Word(kind) :: 0x41 <= b <= 0x5a || 0x61 <= b <= 0x7a
    requires kind != IHDR && kind != IEND && kind != TRNS && (kind == IDAT || Word(kind)[0] >= 0x61)
    ensures Inner(kind)
  {
    assert Word(kind)[0] in Word(kind);
  }

  // ---------------------------------------------------------------- the loop

  /** The chunk loop over an offset. */
  method WalkChunks(lib: Library, content: Bytes) returns (done: Option<Scan>)
    requires |content| >= 8
    ensures done == Walk(lib, content[8..], START)
  {
    hide ReadChunk;
    var offset := 8;
    var header: Option<Bytes>, compressed: Bytes, idatSeen, idatFinished := None, [], false, false;
    while offset + 12 <= |content|
      invariant 8 <= offset <= |content| && (header.Some? ==> ValidHeader(header.value))
      invariant Walk(lib, content[8..], START)
                == Walk(lib, content[offset..], Scan(header, compressed, idatSeen, idatFinished))
      decreases |content| - offset
    {
      var chunk := ChunkAt(lib, content, offset);
      if chunk.None? { return None; }
      var (kind, data) := chunk.value;
      ghost var scan := Scan(header, compressed, idatSeen, idatFinished);
      if header.None? && kind != IHDR { return None; }
      if kind == IEND {
        return if |data| != 0 || !idatSeen then None else Some(Scan(header, compressed, idatSeen, idatFinished));
      }
      if kind == IHDR {
        if header.Some? || !ValidHeader(data) { return None; }
        header := Some(data);
      } else if kind == IDAT {
        if idatFinished { return None; }
        idatSeen, compressed := true, compressed + data;
      } else if kind == TRNS || !IsAncillary(kind) {
        return None;
      }
      if idatSeen && kind != IDAT { idatFinished := true; }
      assert Take(scan, kind, data) == Some(Scan(header, compressed, idatSeen, idatFinished));
      offset := offset + 12 + |data|;
    }
    return None;
  }

  method ChunkAt(lib: Library, content: Bytes, offset: nat) returns (chunk: Option<(word, Bytes)>)
    requires offset + 12 <= |content|
    ensures chunk.None? <==> ReadChunk(lib, content[offset..]).None?
    ensures chunk.Some? ==>
              && offset + 12 + |chunk.value.1| <= |content|
              && ReadChunk(lib, content[offset..])
                 == Some((chunk.value.0, chunk.value.1, content[offset + 12 + |chunk.value.1|..]))
  {
    ghost var s := content[offset..];
    assert content[offset..offset + 4] == s[..4] && content[offset + 4..offset + 8] == s[4..8];
    var size, name := ReadWord(content[offset..offset + 4]), content[offset + 4..offset + 8];
    var end := offset + 12 + size;
    if end > |content| || !IsName(name) { return None; }
    var data := content[offset + 8..end - 4];
    assert data == s[8..8 + size] && content[end - 4..end] == s[8 + size..12 + size]
        && content[end..] == s[12 + size..];
    if lib.crc(name + data) != ReadWord(content[end - 4..end]) { return None; }
    return Some((ReadWord(name), data));
  }

  /** The decompression and unfiltering of one image. */
  method ReadPixels(lib: Library, header: Bytes, idat: Bytes) returns (pixels: Option<Bytes>)
    requires ValidHeader(header)
    ensures pixels == DecodePixels(lib, header, idat)
  {
    var inflated := lib.inflate(idat, Expected(header) + 1);
    if inflated.None? || |inflated.value.raw| != Expected(header) || !inflated.value.eof { return None; }
    if inflated.value.unused != [] || inflated.value.tail != [] { return None; }
    pixels := UnpackRows(Channels(header), Stride(header), Height(header), inflated.value.raw);
  }

  /** The whole rewrite. */
  method PixelPng(lib: Library, content: Bytes) returns (out: Option<Bytes>)
    ensures out == Rewrite(lib, content)
  {
    if !(SIGNATURE <= content) || |content| > MAX_CONTENT { return None; }
    var scan := WalkChunks(lib, content);
    if scan.None? { return None; }
    var header := scan.value.header.value;
    var pixels := ReadPixels(lib, header, scan.value.idat);
    if pixels.None? { return None; }
    return Encode(lib, Image(header, pixels.value));
  }
}
