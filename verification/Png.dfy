/** The PNG writer of setup/lib/teams-manifest.ts and a reader for what it writes.

    Chunk layout and CRC coverage follow RFC 2083 section 3.2; compression is a parameter. */
module Png {
  import opened Crc32
  import opened Wrappers

  const SIGNATURE: seq<Byte> := [0x89, 0x50, 0x4e, 0x47, 0x0d, 0x0a, 0x1a, 0x0a]
  const IHDR: seq<Byte> := [0x49, 0x48, 0x44, 0x52]
  const IDAT: seq<Byte> := [0x49, 0x44, 0x41, 0x54]
  const IEND: seq<Byte> := [0x49, 0x45, 0x4e, 0x44]

  const UINT32: int := 0x1_0000_0000

  // ------------------------------------------------------------ big-endian

  function Be32(n: int): (s: seq<Byte>)
    requires 0 <= n < UINT32
    ensures |s| == 4
  {
    var b, c, d := n / 0x100, n / 0x100 / 0x100, n / 0x100 / 0x100 / 0x100;
    [ByteOf(d), ByteOf(c % 0x100), ByteOf(b % 0x100), ByteOf(n % 0x100)]
  }

  function FromBe32(s: seq<Byte>): (n: int)
    requires |s| == 4
    ensures 0 <= n < UINT32
  {
    s[0] as int * 0x100_0000 + s[1] as int * 0x1_0000 + s[2] as int * 0x100 + s[3] as int
  }

  lemma NextByte(b: Byte)
    requires b as int < 255
    ensures (b + 1) as int == b as int + 1
  {
  }

  lemma {:induction false} SomeByte(n: nat) returns (b: Byte)
    requires n < 256
    ensures b as int == n
  {
    b := 0;
    if n > 0 {
      var c := SomeByte(n - 1);
      NextByte(c);
      b := c + 1;
    }
  }

  lemma IntOfByte(n: int)
    requires 0 <= n < 256
    ensures ByteOf(n) as int == n
  {
    hide ByteOf;
    var b := SomeByte(n);
    ByteOfInt(b);
  }

  lemma Be32RoundTrip(n: int)
    requires 0 <= n < UINT32
    ensures FromBe32(Be32(n)) == n
  {
    hide ByteOf;
    var b, c, d := n / 0x100, n / 0x100 / 0x100, n / 0x100 / 0x100 / 0x100;
    IntOfByte(d);
    IntOfByte(c % 0x100);
    IntOfByte(b % 0x100);
    IntOfByte(n % 0x100);
  }

  /** The most significant byte comes first. */
  lemma Be32Bytes(n: int)
    requires 0 <= n < UINT32
    ensures var s := Be32(n);
      n == s[0] as int * 0x100_0000 + s[1] as int * 0x1_0000 + s[2] as int * 0x100 + s[3] as int
  {
    hide Be32;
    Be32RoundTrip(n);
  }

  lemma Be32Injective(m: int, n: int)
    requires 0 <= m < UINT32 && 0 <= n < UINT32 && Be32(m) == Be32(n)
    ensures m == n
  {
    Be32RoundTrip(m);
    Be32RoundTrip(n);
  }

  function CrcInt(s: seq<Byte>): (n: int)
    ensures 0 <= n < UINT32
  {
    Crc(s) as int
  }

  lemma Back(w: bv32)
    ensures (w as int) as bv32 == w
  {
  }

  lemma CrcIntInjective(s: seq<Byte>, t: seq<Byte>)
    requires CrcInt(s) == CrcInt(t)
    ensures Crc(s) == Crc(t)
  {
    hide Crc;
    Back(Crc(s));
    Back(Crc(t));
  }

  // ----------------------------------------------------------------- chunks

  function Chunk(kind: seq<Byte>, data: seq<Byte>): seq<Byte>
    requires |data| < UINT32
  {
    Be32(|data|) + kind + data + Be32(CrcInt(kind + data))
  }

  datatype ChunkRead = ChunkRead(kind: seq<Byte>, data: seq<Byte>, rest: seq<Byte>)

  /** Read one chunk; a wrong CRC or a short buffer is refused. */
  function ReadChunk(s: seq<Byte>): Option<ChunkRead> {
    if |s| < 12 then None else
    var n := FromBe32(s[..4]);
    if |s| < 12 + n then None else
    var kind, data := s[4..8], s[8..8 + n];
    if s[8 + n..12 + n] != Be32(CrcInt(kind + data)) then None else
    Some(ChunkRead(kind, data, s[12 + n..]))
  }

  lemma ReadWrittenChunk(kind: seq<Byte>, data: seq<Byte>, rest: seq<Byte>)
    requires |kind| == 4 && |data| < UINT32
    ensures ReadChunk(Chunk(kind, data) + rest) == Some(ChunkRead(kind, data, rest))
  {
    hide CrcInt, Be32, FromBe32;
    var s := Chunk(kind, data) + rest;
    Be32RoundTrip(|data|);
    assert s[..4] == Be32(|data|);
    assert s[4..8] == kind;
    assert s[8..8 + |data|] == data;
    assert s[8 + |data|..12 + |data|] == Be32(CrcInt(kind + data));
    assert s[12 + |data|..] == rest;
  }

  /** What the CRC is for: a chunk whose type and data are damaged inside one window of at
      most four bytes is always refused. */
  lemma DamagedChunkIsRefused(body: seq<Byte>, damaged: seq<Byte>, at: nat, width: nat, rest: seq<Byte>)
    requires 4 <= |body| == |damaged| < UINT32 + 4
    requires width <= 4 && at + width <= |body|
    requires body[..at] == damaged[..at] && body[at + width..] == damaged[at + width..] && body != damaged
    ensures ReadChunk(Be32(|body| - 4) + damaged + Be32(CrcInt(body)) + rest) == None
  {
    hide CrcInt, Be32, FromBe32, Crc;
    var n := |body| - 4;
    var s := Be32(n) + damaged + Be32(CrcInt(body)) + rest;
    Be32RoundTrip(n);
    assert s[..4] == Be32(n);
    assert s[4..8] + s[8..8 + n] == damaged;
    assert s[8 + n..12 + n] == Be32(CrcInt(body));
    if CrcInt(body) == CrcInt(damaged) {
      CrcIntInjective(body, damaged);
      var v, w := body[at..at + width], damaged[at..at + width];
      assert body == body[..at] + v + body[at + width..];
      assert damaged == body[..at] + w + body[at + width..];
      BurstsAreDetected(body[..at], v, w, body[at + width..]);
    } else if s[8 + n..12 + n] == Be32(CrcInt(damaged)) {
      Be32Injective(CrcInt(body), CrcInt(damaged));
    }
  }

  // -------------------------------------------------------------- scanlines

  /** Reading past the end of a byte array and storing it gives 0. */
  function PixelAt(pixels: seq<Byte>, i: nat): Byte {
    if i < |pixels| then pixels[i] else 0
  }

  /** Where row y of the given stride starts. */
  function RowStart(y: nat, stride: nat): nat {
    y * stride
  }

  lemma RowStartStep(y: nat, stride: nat)
    ensures RowStart(y + 1, stride) == RowStart(y, stride) + stride
    ensures RowStart(0, stride) == 0
  {
  }

  lemma RowStartMonotone(y: nat, z: nat, stride: nat)
    requires y <= z
    ensures RowStart(y, stride) <= RowStart(z, stride)
  {
    assert z * stride == y * stride + (z - y) * stride;
  }

  function PixelRow(pixels: seq<Byte>, rowBytes: nat, y: nat): (row: seq<Byte>)
    ensures |row| == rowBytes
  {
    seq(rowBytes, x requires 0 <= x < rowBytes => PixelAt(pixels, RowStart(y, rowBytes) + x))
  }

  /** The first y rows, each behind a zero filter byte. */
  function Scanlines(pixels: seq<Byte>, rowBytes: nat, y: nat): (raw: seq<Byte>)
    ensures |raw| == RowStart(y, rowBytes + 1)
  {
    RowStartStep(if y == 0 then 0 else y - 1, rowBytes + 1);
    if y == 0 then []
    else Scanlines(pixels, rowBytes, y - 1) + [0] + PixelRow(pixels, rowBytes, y - 1)
  }

  /** Undo Scanlines: every row must exist and start with filter 0. */
  function ReadRows(raw: seq<Byte>, rowBytes: nat, y: nat): Option<seq<Byte>>
    decreases y
  {
    if y == 0 then if raw == [] then Some([]) else None
    else if |raw| < rowBytes + 1 then None
    else
      var cut := |raw| - rowBytes - 1;
      if raw[cut] != 0 then None else
      match ReadRows(raw[..cut], rowBytes, y - 1)
      case None => None
      case Some(above) => Some(above + raw[cut + 1..])
  }

  lemma ReadOneRow(above: seq<Byte>, row: seq<Byte>, y: nat)
    requires y > 0
    ensures ReadRows(above + [0] + row, |row|, y) ==
      match ReadRows(above, |row|, y - 1) { case None => None case Some(p) => Some(p + row) }
  {
    var raw := above + [0] + row;
    assert raw[..|above|] == above && raw[|above|] == 0 && raw[|above| + 1..] == row;
  }

  lemma PixelRowIsSlice(pixels: seq<Byte>, rowBytes: nat, y: nat)
    requires RowStart(y, rowBytes) + rowBytes <= |pixels|
    ensures pixels[..RowStart(y, rowBytes)] + PixelRow(pixels, rowBytes, y) ==
      pixels[..RowStart(y, rowBytes) + rowBytes]
  {
    hide RowStart;
    var row, base := PixelRow(pixels, rowBytes, y), RowStart(y, rowBytes);
    var slice := pixels[base..base + rowBytes];
    forall x | 0 <= x < rowBytes ensures row[x] == slice[x] {
      assert row[x] == PixelAt(pixels, base + x);
      assert slice[x] == pixels[base + x];
    }
    assert row == slice;
    assert pixels[..base + rowBytes] == pixels[..base] + slice;
  }

  lemma {:induction false} RowsRoundTrip(pixels: seq<Byte>, rowBytes: nat, y: nat)
    requires RowStart(y, rowBytes) <= |pixels|
    ensures ReadRows(Scanlines(pixels, rowBytes, y), rowBytes, y) == Some(pixels[..RowStart(y, rowBytes)])
  {
    if y == 0 {
      RowStartStep(0, rowBytes);
    } else {
      hide RowStart, ReadRows, PixelRow;
      RowStartStep(y - 1, rowBytes);
      RowsRoundTrip(pixels, rowBytes, y - 1);
      ReadOneRow(Scanlines(pixels, rowBytes, y - 1), PixelRow(pixels, rowBytes, y - 1), y);
      PixelRowIsSlice(pixels, rowBytes, y - 1);
    }
  }

  lemma RowOffset(y: nat, height: nat, rowBytes: nat, x: nat)
    requires y < height && x < rowBytes
    ensures RowStart(y, rowBytes + 1) + 1 + x < RowStart(height, rowBytes + 1)
  {
    RowStartStep(y, rowBytes + 1);
    RowStartMonotone(y + 1, height, rowBytes + 1);
  }

  /** Byte by byte: each row starts with filter 0, then come its bytes, or 0 where the pixels end early. */
  lemma {:induction false} ScanlinesAt(pixels: seq<Byte>, rowBytes: nat, height: nat, y: nat, x: nat)
    requires y < height && x < rowBytes
    ensures y * (rowBytes + 1) + 1 + x < |Scanlines(pixels, rowBytes, height)|
    ensures Scanlines(pixels, rowBytes, height)[y * (rowBytes + 1)] == 0
    ensures Scanlines(pixels, rowBytes, height)[y * (rowBytes + 1) + 1 + x] ==
      if y * rowBytes + x < |pixels| then pixels[y * rowBytes + x] else 0
  {
    RowOffset(y, height, rowBytes, x);
    assert RowStart(y, rowBytes + 1) == y * (rowBytes + 1) && RowStart(y, rowBytes) == y * rowBytes;
    hide RowStart;
    var above, row := Scanlines(pixels, rowBytes, height - 1), PixelRow(pixels, rowBytes, height - 1);
    if y < height - 1 {
      ScanlinesAt(pixels, rowBytes, height - 1, y, x);
    } else {
      assert (above + [0] + row)[|above| + 1 + x] == row[x];
    }
  }

  // ----------------------------------------------------------------- images

  function Header(width: int, height: int): (s: seq<Byte>)
    requires 0 <= width < UINT32 && 0 <= height < UINT32
    ensures |s| == 13
  {
    Be32(width) + Be32(height) + [8, 6, 0, 0, 0]
  }

  function PngFile(width: int, height: int, idat: seq<Byte>): seq<Byte>
    requires 0 <= width < UINT32 && 0 <= height < UINT32 && |idat| < UINT32
  {
    SIGNATURE + Chunk(IHDR, Header(width, height)) + Chunk(IDAT, idat) + Chunk(IEND, [])
  }

  lemma ByteIs(b: Byte, n: nat)
    requires b as int == n
    ensures n < 256 && ByteOf(n) == b
  {
    ByteOfInt(b);
  }

  lemma SmallBytes()
    ensures Be32(0) == [0, 0, 0, 0] && Be32(13) == [0, 0, 0, 13]
    ensures Be32(0xae42_6082) == [0xae, 0x42, 0x60, 0x82]
  {
    hide ByteOf;
    ByteIs(0, 0);
    ByteIs(13, 13);
    ByteIs(0xae, 0xae);
    ByteIs(0x42, 0x42);
    ByteIs(0x60, 0x60);
    ByteIs(0x82, 0x82);
  }

  lemma EndChunk()
    ensures Chunk(IEND, []) == [0, 0, 0, 0, 0x49, 0x45, 0x4e, 0x44, 0xae, 0x42, 0x60, 0x82]
  {
    hide Crc, Be32;
    SmallBytes();
    EndChunkCrc();
    assert IEND + [] == IEND;
    var c: bv32 := 0xae42_6082;
    assert c as int == 0xae42_6082;
  }

  ghost predicate HeaderAt(c: seq<Byte>, width: int, height: int) {
    && |c| == 25 && c[..8] == [0, 0, 0, 13, 0x49, 0x48, 0x44, 0x52]
    && FromBe32(c[8..12]) == width && FromBe32(c[12..16]) == height && c[16..21] == [8, 6, 0, 0, 0]
    && FromBe32(c[21..25]) == Crc(c[4..21]) as int
  }

  ghost predicate DataAt(c: seq<Byte>, idat: seq<Byte>) {
    && |c| == 12 + |idat|
    && FromBe32(c[..4]) == |idat| && c[4..8] == [0x49, 0x44, 0x41, 0x54] && c[8..8 + |idat|] == idat
    && FromBe32(c[8 + |idat|..]) == Crc(c[4..8 + |idat|]) as int
  }

  /** The file, byte for byte: the signature; a header of 13 bytes with width, height and the settings for 8-bit
      RGBA; the data; the end; and behind each type and its data their CRC. */
  ghost predicate LaidOut(f: seq<Byte>, width: int, height: int, idat: seq<Byte>) {
    && |f| == 57 + |idat|
    && f[..8] == [0x89, 0x50, 0x4e, 0x47, 0x0d, 0x0a, 0x1a, 0x0a]
    && HeaderAt(f[8..33], width, height)
    && DataAt(f[33..45 + |idat|], idat)
    && f[45 + |idat|..] == [0, 0, 0, 0, 0x49, 0x45, 0x4e, 0x44, 0xae, 0x42, 0x60, 0x82]
  }

  lemma HeaderChunk(width: int, height: int)
    requires 0 <= width < UINT32 && 0 <= height < UINT32
    ensures |Chunk(IHDR, Header(width, height))| == 25 && HeaderAt(Chunk(IHDR, Header(width, height)), width, height)
  {
    hide Crc, Be32, FromBe32;
    var h := Header(width, height);
    var c := Chunk(IHDR, h);
    Be32RoundTrip(width);
    Be32RoundTrip(height);
    Be32RoundTrip(CrcInt(IHDR + h));
    SmallBytes();
    assert c[..8] == Be32(13) + IHDR && c[8..12] == Be32(width) && c[12..16] == Be32(height);
    assert c[4..21] == IHDR + h && c[21..25] == Be32(CrcInt(IHDR + h));
  }

  lemma DataChunk(idat: seq<Byte>)
    requires |idat| < UINT32
    ensures |Chunk(IDAT, idat)| == 12 + |idat| && DataAt(Chunk(IDAT, idat), idat)
  {
    hide Crc, Be32, FromBe32;
    var c, n := Chunk(IDAT, idat), |idat|;
    Be32RoundTrip(n);
    Be32RoundTrip(CrcInt(IDAT + idat));
    assert c[..4] == Be32(n) && c[8 + n..] == Be32(CrcInt(IDAT + idat)) && c[4..8 + n] == IDAT + idat;
  }

  lemma FileLayout(width: int, height: int, idat: seq<Byte>)
    requires 0 <= width < UINT32 && 0 <= height < UINT32 && |idat| < UINT32
    ensures LaidOut(PngFile(width, height, idat), width, height, idat)
  {
    hide Chunk, Header, HeaderAt, DataAt;
    var f := PngFile(width, height, idat);
    var head, body, end := Chunk(IHDR, Header(width, height)), Chunk(IDAT, idat), Chunk(IEND, []);
    HeaderChunk(width, height);
    DataChunk(idat);
    EndChunk();
    assert f[8..33] == head && f[33..45 + |idat|] == body && f[45 + |idat|..] == end;
  }

  datatype Image = Image(width: int, height: int, pixels: seq<Byte>)

  /** A strict reader for 8-bit RGBA images in one IDAT chunk: every CRC is checked. */
  function ReadPng(s: seq<Byte>, inflate: seq<Byte> -> Option<seq<Byte>>): Option<Image> {
    if |s| < 8 || s[..8] != SIGNATURE then None else
    match ReadChunk(s[8..])
    case None => None
    case Some(h) =>
      if h.kind != IHDR || |h.data| != 13 || h.data[8..] != [8, 6, 0, 0, 0] then None else
      var width, height := FromBe32(h.data[..4]), FromBe32(h.data[4..8]);
      match ReadChunk(h.rest)
      case None => None
      case Some(d) =>
        if d.kind != IDAT then None else
        match (inflate(d.data), ReadChunk(d.rest))
        case (Some(raw), Some(e)) =>
          if e != ChunkRead(IEND, [], []) then None else
          (match ReadRows(raw, 4 * width, height)
           case None => None
           case Some(pixels) => Some(Image(width, height, pixels)))
        case _ => None
  }

  /** What encodePng writes, a checking reader reads back, for every compression that inflates. */
  lemma PngRoundTrip(width: int, height: int, pixels: seq<Byte>, idat: seq<Byte>,
                     inflate: seq<Byte> -> Option<seq<Byte>>)
    requires 0 <= width < UINT32 && 0 <= height < UINT32 && |idat| < UINT32
    requires inflate(idat) == Some(Scanlines(pixels, 4 * width, height))
    requires |pixels| == RowStart(height, 4 * width)
    ensures ReadPng(PngFile(width, height, idat), inflate) == Some(Image(width, height, pixels))
  {
    hide Chunk, ReadChunk, Be32, FromBe32, Scanlines, ReadRows, RowStart;
    var s := PngFile(width, height, idat);
    var h := Header(width, height);
    var rest := Chunk(IDAT, idat) + Chunk(IEND, []);
    assert s[..8] == SIGNATURE;
    assert s[8..] == Chunk(IHDR, h) + rest;
    ReadWrittenChunk(IHDR, h, rest);
    assert h[..4] == Be32(width) && h[4..8] == Be32(height) && h[8..] == [8, 6, 0, 0, 0];
    Be32RoundTrip(width);
    Be32RoundTrip(height);
    ReadWrittenChunk(IDAT, idat, Chunk(IEND, []));
    assert Chunk(IEND, []) == Chunk(IEND, []) + [];
    ReadWrittenChunk(IEND, [], []);
    RowsRoundTrip(pixels, 4 * width, height);
    assert pixels[..RowStart(height, 4 * width)] == pixels;
  }

  // ------------------------------------------------------------- the program

  function IntOf(c: bv32): (n: int)
    ensures 0 <= n < UINT32
  {
    c as int
  }

  method WriteChunk(table: array<bv32>, kind: seq<Byte>, data: seq<Byte>) returns (r: seq<Byte>)
    requires IsCrcTable(table[..]) && |data| < UINT32
    ensures r == Chunk(kind, data)
  {
    hide IsCrcTable, Crc, Be32;
    var c := ComputeCrc32(table, kind + data);
    r := Be32(|data|) + kind + data + Be32(IntOf(c));
  }

  method FillScanlines(pixels: seq<Byte>, rowBytes: nat, height: nat) returns (filled: seq<Byte>)
    ensures filled == Scanlines(pixels, rowBytes, height)
  {
    hide RowStart;
    var stride := rowBytes + 1;
    var raw := new Byte[RowStart(height, stride)](_ => 0);
    RowStartStep(0, stride);
    for y := 0 to height
      invariant RowStart(y, stride) <= raw.Length
      invariant raw[..RowStart(y, stride)] == Scanlines(pixels, rowBytes, y)
    {
      var start := RowStart(y, stride);
      RowStartStep(y, stride);
      RowStartMonotone(y + 1, height, stride);
      ghost var above, row := raw[..start], PixelRow(pixels, rowBytes, y);
      raw[start] := 0;
      for x := 0 to rowBytes
        invariant raw[..start + 1 + x] == above + [0] + row[..x]
      {
        raw[start + 1 + x] := PixelAt(pixels, RowStart(y, rowBytes) + x);
        assert raw[..start + 2 + x] == raw[..start + 1 + x] + [row[x]];
      }
    }
    filled := raw[..];
    assert filled == raw[..RowStart(height, stride)];
  }

  /** The two header writes and the chunk length refuse a value outside 32 bits. */
  method EncodePng(table: array<bv32>, width: int, height: int, pixels: seq<Byte>, deflate: seq<Byte> -> seq<Byte>)
    returns (r: Option<seq<Byte>>)
    requires IsCrcTable(table[..])
    ensures r.Some? <==>
      && 0 <= width < UINT32 && 0 <= height < UINT32
      && |deflate(Scanlines(pixels, width * 4, height))| < UINT32
    ensures r.Some? ==> r.value == PngFile(width, height, deflate(Scanlines(pixels, width * 4, height)))
    ensures r.Some? ==> LaidOut(r.value, width, height, deflate(Scanlines(pixels, width * 4, height)))
  {
    hide IsCrcTable, Chunk, Crc, Be32, LaidOut;
    if !(0 <= width < UINT32 && 0 <= height < UINT32) {
      return None;
    }
    var rowBytes := width * 4;
    var raw := FillScanlines(pixels, rowBytes, height);
    var idat := deflate(raw);
    if |idat| >= UINT32 {
      return None;
    }
    var head := WriteChunk(table, IHDR, Header(width, height));
    var body := WriteChunk(table, IDAT, idat);
    var tail := WriteChunk(table, IEND, []);
    FileLayout(width, height, idat);
    r := Some(SIGNATURE + head + body + tail);
  }
}
