/**
 The Shapefile writer: a .shp, a .shx and a .dbf with headers that must agree with their bodies and with each other.
 Coordinates are 64-bit float patterns.  Here a text is a sequence of code points.
 */
module Shapefile {
  import opened Basics
  import opened Exports

  const WORD := 0x1_0000_0000
  const HALF := 0x8000_0000

  // ---- numbers as bytes -------------------------------------------------------------

  /** The low `k` bytes of a number, most significant first. */
  function BigEndian(n: nat, k: nat): (b: seq<Byte>)
    ensures |b| == k
  {
    if k == 0 then [] else BigEndian(n / 256, k - 1) + [n % 256]
  }

  /** The low `k` bytes of a number, least significant first. */
  function LittleEndian(n: nat, k: nat): (b: seq<Byte>)
    ensures |b| == k
  {
    if k == 0 then [] else [n % 256] + LittleEndian(n / 256, k - 1)
  }

  /** int32(n), big-endian: what does not fit wraps. */
  function Be32(n: int): (b: seq<Byte>)
    ensures |b| == 4
  {
    BigEndian(n % WORD, 4)
  }

  function Le32(n: int): (b: seq<Byte>)
    ensures |b| == 4
  {
    LittleEndian(n % WORD, 4)
  }

  function Le16(n: int): (b: seq<Byte>)
    ensures |b| == 2
  {
    LittleEndian(n % 0x1_0000, 2)
  }

  /** The pattern of a float64. */
  type Bits = x: int | 0 <= x < 0x1_0000_0000_0000_0000

  function Le64(x: Bits): (b: seq<Byte>)
    ensures |b| == 8
  {
    LittleEndian(x, 8)
  }

  function FromBigEndian(b: seq<Byte>): nat {
    if b == [] then 0 else FromBigEndian(Front(b)) * 256 + Last(b)
  }

  function FromLittleEndian(b: seq<Byte>): nat {
    if b == [] then 0 else b[0] + 256 * FromLittleEndian(b[1..])
  }

  function Limit(k: nat): nat {
    if k == 0 then 1 else 256 * Limit(k - 1)
  }

  lemma {:induction false} BytesRead(n: nat, k: nat)
    requires n < Limit(k)
    ensures FromBigEndian(BigEndian(n, k)) == n && FromLittleEndian(LittleEndian(n, k)) == n
  {
    if k > 0 {
      BytesRead(n / 256, k - 1);
      assert Front(BigEndian(n, k)) == BigEndian(n / 256, k - 1);
      assert LittleEndian(n, k)[1..] == LittleEndian(n / 256, k - 1);
    }
  }

  lemma Limits()
    ensures Limit(4) == WORD && Limit(8) == WORD * WORD
  {
    assert Limit(2) == 0x1_0000;
    assert Limit(6) == 256 * (256 * Limit(4));
  }

  /** A signed big-endian 32-bit field. */
  function ReadBe32(b: seq<Byte>): int {
    var u: int := FromBigEndian(b);
    if u < HALF then u else u - WORD
  }

  /** A 32-bit field holds a count or an offset exactly as long as it is below 2^31 when signed, 2^32 when not. */
  lemma Exact32(n: nat)
    ensures ReadBe32(Be32(n)) == n <==> n < HALF
    ensures FromLittleEndian(Le32(n)) == n <==> n < WORD
  {
    Whole32(n % WORD);
    if n < WORD {
      Whole32(n);
    }
  }

  lemma Whole32(n: nat)
    requires n < WORD
    ensures n % WORD == n
    ensures FromBigEndian(BigEndian(n, 4)) == n && FromLittleEndian(LittleEndian(n, 4)) == n
  {
    Limits();
    BytesRead(n, 4);
  }

  lemma Read64(x: Bits)
    ensures FromLittleEndian(Le64(x)) == x
  {
    Limits();
    BytesRead(x, 8);
  }

  // ---- the rows ----------------------------------------------------------------------

  datatype Attributes = Attributes(
    id: string, tier: string, infra: seq<string>, hazard: seq<string>, verification: string,
    plusCode: Option<string>, clusters: seq<string>, timestamp: string)

  datatype Shape = Shape(x: Bits, y: Bits, a: Attributes)

  /** A report without a point has no shape. */
  type Row = Option<Shape>

  function Resolved(rows: seq<Row>): seq<Shape> {
    if rows == [] then [] else Resolved(Front(rows)) + if Last(rows).Some? then [Last(rows).value] else []
  }

  // ---- order of floats ---------------------------------------------------------------

  const SIGN := 0x8000_0000_0000_0000

  /** Finite floats compare as their patterns read as sign and magnitude; the two zeros are equal. */
  function Rank64(x: Bits): int {
    if x < SIGN then x else SIGN - x
  }

  /** Negative numbers come before the others and in reverse; the two zeros are equal. */
  lemma FloatOrder(x: Bits, y: Bits)
    ensures x < 0x8000_0000_0000_0000 && y < 0x8000_0000_0000_0000 ==> (Rank64(x) < Rank64(y) <==> x < y)
    ensures x >= 0x8000_0000_0000_0000 && y >= 0x8000_0000_0000_0000 ==> (Rank64(x) < Rank64(y) <==> x > y)
    ensures x >= 0x8000_0000_0000_0000 > y ==> Rank64(x) <= Rank64(y)
    ensures x >= 0x8000_0000_0000_0000 > y ==> (Rank64(x) == Rank64(y) <==> x == 0x8000_0000_0000_0000 && y == 0)
  {}

  /** math.Min and math.Max on finite floats: of the two zeros the negative one is the smaller. */
  function MinFloat(x: Bits, y: Bits): Bits {
    if Rank64(x) == 0 && Rank64(y) == 0 then (if x >= SIGN then x else y) else if Rank64(x) < Rank64(y) then x else y
  }

  function MaxFloat(x: Bits, y: Bits): Bits {
    if Rank64(x) == 0 && Rank64(y) == 0 then (if x >= SIGN then y else x) else if Rank64(x) > Rank64(y) then x else y
  }

  datatype Hull = Hull(minX: Bits, minY: Bits, maxX: Bits, maxY: Bits)

  predicate TouchesX(s: seq<Shape>, x: Bits) {
    exists i :: 0 <= i < |s| && s[i].x == x
  }

  predicate TouchesY(s: seq<Shape>, y: Bits) {
    exists i :: 0 <= i < |s| && s[i].y == y
  }

  predicate Encloses(h: Hull, p: Shape) {
    && Rank64(h.minX) <= Rank64(p.x) <= Rank64(h.maxX)
    && Rank64(h.minY) <= Rank64(p.y) <= Rank64(h.maxY)
  }

  /** The box encloses every shape, and each of its sides touches one. */
  ghost predicate TightHull(s: seq<Shape>, h: Hull) {
    && (forall i :: 0 <= i < |s| ==> Encloses(h, s[i]))
    && TouchesX(s, h.minX) && TouchesX(s, h.maxX) && TouchesY(s, h.minY) && TouchesY(s, h.maxY)
  }

  /** No shapes: a box of zeros. */
  ghost predicate HullOf(s: seq<Shape>, h: Hull) {
    if s == [] then h == Hull(0, 0, 0, 0) else TightHull(s, h)
  }

  function Widened(h: Hull, p: Shape): Hull {
    Hull(MinFloat(h.minX, p.x), MinFloat(h.minY, p.y), MaxFloat(h.maxX, p.x), MaxFloat(h.maxY, p.y))
  }

  lemma TouchAppend(s: seq<Shape>, p: Shape, z: Bits)
    ensures TouchesX(s, z) || p.x == z ==> TouchesX(s + [p], z)
    ensures TouchesY(s, z) || p.y == z ==> TouchesY(s + [p], z)
  {
    var t := s + [p];
    assert t[|s|] == p;
    if TouchesX(s, z) {
      var i :| 0 <= i < |s| && s[i].x == z;
      assert t[i].x == z;
    }
    if TouchesY(s, z) {
      var i :| 0 <= i < |s| && s[i].y == z;
      assert t[i].y == z;
    }
  }

  lemma HullGrows(s: seq<Shape>, h: Hull, p: Shape)
    requires TightHull(s, h)
    ensures TightHull(s + [p], Widened(h, p))
  {
    var w := Widened(h, p);
    TouchAppend(s, p, w.minX);
    TouchAppend(s, p, w.minY);
    TouchAppend(s, p, w.maxX);
    TouchAppend(s, p, w.maxY);
    assert Encloses(w, p);
    forall i | 0 <= i < |s| ensures Encloses(w, s[i]) {
      EnclosesMore(h, p, s[i]);
    }
  }

  lemma EnclosesMore(h: Hull, p: Shape, q: Shape)
    requires Encloses(h, q)
    ensures Encloses(Widened(h, p), q)
  {}

  // ---- the files as functions of the shapes -----------------------------------------------

  function Zeros(n: nat): (b: seq<Byte>)
    ensures |b| == n
  {
    seq(n, i => 0)
  }

  /** A point record: number and content length big-endian, then type and coordinates little-endian. */
  function Record(number: int, p: Shape): (b: seq<Byte>)
    ensures |b| == 28
  {
    Be32(number) + Be32(10) + Le32(1) + Le64(p.x) + Le64(p.y)
  }

  function ShpBody(s: seq<Shape>): (b: seq<Byte>)
    ensures |b| == 28 * |s|
  {
    if s == [] then [] else ShpBody(Front(s)) + Record(|s|, Last(s))
  }

  function IndexEntry(offsetWords: int): (b: seq<Byte>)
    ensures |b| == 8
  {
    Be32(offsetWords) + Be32(10)
  }

  /** Record i begins at this word. */
  function WordOffset(i: nat): nat {
    50 + 14 * i
  }

  function ShxBody(n: nat): (b: seq<Byte>)
    ensures |b| == 8 * n
  {
    if n == 0 then [] else ShxBody(n - 1) + IndexEntry(WordOffset(n - 1))
  }

  function Box(h: Hull): (b: seq<Byte>)
    ensures |b| == 32
  {
    Le64(h.minX) + Le64(h.minY) + Le64(h.maxX) + Le64(h.maxY)
  }

  /** File code, file length in 16-bit words, version, shape type. */
  function ShpStart(fileLenBytes: nat): (b: seq<Byte>)
    ensures |b| == 36
  {
    Be32(9994) + Zeros(20) + Be32(fileLenBytes / 2) + Le32(1000) + Le32(1)
  }

  function ShpHeader(fileLenBytes: nat, h: Hull): (b: seq<Byte>)
    ensures |b| == 100
  {
    ShpStart(fileLenBytes) + Box(h) + Zeros(32)
  }

  // ---- dBASE -----------------------------------------------------------------------------

  const FIELD_NAMES := ["id", "damage", "infra", "hazard", "verif", "pluscode", "clusters", "timestamp"]
  const FIELD_WIDTHS: seq<Byte> := [24, 12, 40, 40, 10, 16, 40, 20]

  function FieldText(a: Attributes, k: nat): string
    requires k < 8
  {
    match k
    case 0 => a.id
    case 1 => TitleTier(a.tier)
    case 2 => Semicolons(a.infra)
    case 3 => Semicolons(a.hazard)
    case 4 => a.verification
    case 5 => Deref(a.plusCode)
    case 6 => Semicolons(a.clusters)
    case _ => a.timestamp
  }

  /** Printable ASCII as it is, anything else as a question mark. */
  function Ascii(c: char): Byte {
    if 0x20 <= c as int <= 0x7E then c as int else 0x3F
  }

  /** The first `width` code points, padded with spaces. */
  function Fixed(s: string, width: nat): (b: seq<Byte>)
    ensures |b| == width
  {
    seq(width, i => if 0 <= i < |s| then Ascii(s[i]) else 0x20)
  }

  function FieldsTo(a: Attributes, k: nat): seq<Byte>
    requires k <= 8
  {
    if k == 0 then [] else FieldsTo(a, k - 1) + Fixed(FieldText(a, k - 1), FIELD_WIDTHS[k - 1])
  }

  function WidthTo(k: nat): nat
    requires k <= 8
  {
    if k == 0 then 0 else WidthTo(k - 1) + FIELD_WIDTHS[k - 1]
  }

  lemma {:induction false} FieldsWidth(a: Attributes, k: nat)
    requires k <= 8
    ensures |FieldsTo(a, k)| == WidthTo(k)
  {
    if k > 0 {
      FieldsWidth(a, k - 1);
    }
  }

  lemma AllWidths()
    ensures WidthTo(8) == 202
  {
    assert WidthTo(4) == 116;
    assert WidthTo(6) == 142;
  }

  /** A record: the deletion flag and the fields. */
  function DbfRecord(a: Attributes): (b: seq<Byte>)
    ensures |b| == 203
  {
    FieldsWidth(a, 8);
    AllWidths();
    [0x20] + FieldsTo(a, 8)
  }

  function DbfBody(s: seq<Shape>): (b: seq<Byte>)
    ensures |b| == 203 * |s|
  {
    if s == [] then [] else DbfBody(Front(s)) + DbfRecord(Last(s).a)
  }

  datatype Date = Date(year: int, month: int, day: int)

  /** An 11-byte name, cut or padded with zeros. */
  function NameBytes(name: string): (b: seq<Byte>)
    ensures |b| == 11
  {
    seq(11, i => if 0 <= i < |name| then Ascii(name[i]) else 0)
  }

  function Descriptor(k: nat): (b: seq<Byte>)
    requires k < 8
    ensures |b| == 32
  {
    NameBytes(FIELD_NAMES[k]) + [0x43] + Zeros(4) + [FIELD_WIDTHS[k]] + [0] + Zeros(14)
  }

  function Descriptors(k: nat): (b: seq<Byte>)
    requires k <= 8
    ensures |b| == 32 * k
  {
    if k == 0 then [] else Descriptors(k - 1) + Descriptor(k - 1)
  }

  /** The format byte and the date of the export. */
  function DbfStart(today: Date): (b: seq<Byte>)
    ensures |b| == 4
  {
    [0x03, (today.year - 1900) % 0x100, today.month % 0x100, today.day % 0x100]
  }

  /** Format, date, record count, header size, record size. */
  function DbfSizes(count: nat, today: Date): (b: seq<Byte>)
    ensures |b| == 12
  {
    DbfStart(today) + Le32(count) + Le16(289) + Le16(203)
  }

  function DbfHeader(count: nat, today: Date): (b: seq<Byte>)
    ensures |b| == 289
  {
    DbfSizes(count, today) + (Zeros(20) + Descriptors(8) + [0x0D])
  }

  // ---- reading through the index -------------------------------------------------------------

  lemma {:induction false} RecordAt(s: seq<Shape>, i: nat)
    requires i < |s|
    ensures ShpBody(s)[28 * i..28 * i + 28] == Record(i + 1, s[i])
  {
    if i < |s| - 1 {
      RecordAt(Front(s), i);
      assert ShpBody(s)[28 * i..28 * i + 28] == ShpBody(Front(s))[28 * i..28 * i + 28];
    }
  }

  lemma {:induction false} EntryAt(n: nat, i: nat)
    requires i < n
    ensures ShxBody(n)[8 * i..8 * i + 8] == IndexEntry(WordOffset(i))
  {
    if i < n - 1 {
      EntryAt(n - 1, i);
      assert ShxBody(n)[8 * i..8 * i + 8] == ShxBody(n - 1)[8 * i..8 * i + 8];
    }
  }

  function ShpSize(count: nat): nat {
    100 + count * 28
  }

  function ShxSize(count: nat): nat {
    100 + count * 8
  }

  /** The members as StreamShapefile assembles them. */
  function ShpFile(s: seq<Shape>, h: Hull): seq<Byte> {
    ShpHeader(ShpSize(|s|), h) + ShpBody(s)
  }

  function ShxFile(s: seq<Shape>, h: Hull): seq<Byte> {
    ShpHeader(ShxSize(|s|), h) + ShxBody(|s|)
  }

  function DbfFile(s: seq<Shape>, today: Date): seq<Byte> {
    DbfHeader(|s|, today) + DbfBody(s) + [0x1A]
  }

  /** What a reader does: take record i's offset, in words, from the index. */
  function OffsetOf(shx: seq<Byte>, i: nat): int
    requires 100 + 8 * i + 8 <= |shx|
  {
    ReadBe32(shx[100 + 8 * i..100 + 8 * i + 4])
  }

  /** ... and the coordinates from the record found there. */
  function PointAt(shp: seq<Byte>, at: nat): (int, int)
    requires at + 28 <= |shp|
  {
    (FromLittleEndian(shp[at + 12..at + 20]), FromLittleEndian(shp[at + 20..at + 28]))
  }

  lemma RecordParts(number: int, p: Shape)
    ensures var r := Record(number, p);
      && r[..4] == Be32(number) && r[4..8] == Be32(10) && r[8..12] == Le32(1)
      && r[12..20] == Le64(p.x) && r[20..28] == Le64(p.y)
  {}

  lemma SliceOfSlice(b: seq<Byte>, i: nat, j: nat, k: nat, l: nat)
    requires i <= j <= |b| && k <= l <= j - i
    ensures b[i..j][k..l] == b[i + k..i + l]
  {
    var x := b[i..j];
    var y := x[k..l];
    forall m | 0 <= m < |y| ensures y[m] == b[i + k + m] {
      assert y[m] == x[k + m];
    }
  }

  lemma SliceInside(a: seq<Byte>, b: seq<Byte>, i: nat, j: nat)
    requires i <= j <= |b|
    ensures (a + b)[|a| + i..|a| + j] == b[i..j]
  {}

  lemma EntryIn(head: seq<Byte>, body: seq<Byte>, entry: seq<Byte>, i: nat)
    requires |head| == 100 && 8 * i + 8 <= |body| && body[8 * i..8 * i + 8] == entry
    ensures (head + body)[100 + 8 * i..100 + 8 * i + 4] == entry[..4]
  {
    SliceInside(head, body, 8 * i, 8 * i + 4);
    SliceOfSlice(body, 8 * i, 8 * i + 8, 0, 4);
  }

  lemma EntryReads(s: seq<Shape>, h: Hull, i: nat)
    requires i < |s|
    ensures |ShxFile(s, h)| == 100 + 8 * |s|
    ensures ShxFile(s, h)[100 + 8 * i..100 + 8 * i + 4] == Be32(WordOffset(i))
  {
    EntryAt(|s|, i);
    EntryIn(ShpHeader(ShxSize(|s|), h), ShxBody(|s|), IndexEntry(WordOffset(i)), i);
    assert IndexEntry(WordOffset(i))[..4] == Be32(WordOffset(i));
  }

  lemma OffsetReads(s: seq<Shape>, h: Hull, i: nat)
    requires i < |s|
    ensures |ShxFile(s, h)| == 100 + 8 * |s|
    ensures OffsetOf(ShxFile(s, h), i) == 50 + 14 * i <==> 50 + 14 * i < HALF
  {
    EntryReads(s, h, i);
    Exact32(50 + 14 * i);
  }

  lemma RecordReads(s: seq<Shape>, h: Hull, i: nat)
    requires i < |s|
    ensures |ShpFile(s, h)| == 100 + 28 * |s|
    ensures ShpFile(s, h)[100 + 28 * i..100 + 28 * i + 28] == Record(i + 1, s[i])
  {
    RecordAt(s, i);
    SliceInside(ShpHeader(ShpSize(|s|), h), ShpBody(s), 28 * i, 28 * i + 28);
  }

  lemma PointReads(shp: seq<Byte>, at: nat, number: int, p: Shape)
    requires at + 28 <= |shp| && shp[at..at + 28] == Record(number, p)
    ensures PointAt(shp, at) == (p.x, p.y)
  {
    RecordParts(number, p);
    SliceOfSlice(shp, at, at + 28, 12, 20);
    SliceOfSlice(shp, at, at + 28, 20, 28);
    Read64(p.x);
    Read64(p.y);
  }

  /** A field inside a record inside the table. */
  lemma FieldIn(head: seq<Byte>, body: seq<Byte>, fields: seq<Byte>, i: nat, from: nat, to: nat)
    requires from <= to <= |fields| == 202 && 203 * i + 203 <= |body| && |head| == 289
    requires body[203 * i..203 * i + 203] == [0x20] + fields
    ensures (head + body + [0x1A])[289 + 203 * i + 1 + from..289 + 203 * i + 1 + to] == fields[from..to]
  {
    FrontSlice(head + body, [0x1A], 289 + 203 * i + 1 + from, 289 + 203 * i + 1 + to);
    SliceInside(head, body, 203 * i + 1 + from, 203 * i + 1 + to);
    SliceOfSlice(body, 203 * i, 203 * i + 203, 1 + from, 1 + to);
    SliceInside([0x20], fields, from, to);
  }

  /** Field k of row i of the attribute table. */
  lemma CellReads(s: seq<Shape>, today: Date, i: nat, k: nat)
    requires i < |s| && k < 8
    ensures var at := 289 + 203 * i + 1;
      && at + WidthTo(k) <= at + WidthTo(k + 1) <= |DbfFile(s, today)|
      && DbfFile(s, today)[at + WidthTo(k)..at + WidthTo(k + 1)] == Fixed(FieldText(s[i].a, k), FIELD_WIDTHS[k])
  {
    DbfRecordAt(s, i);
    FieldAt(s[i].a, 8, k);
    AllWidths();
    FieldIn(DbfHeader(|s|, today), DbfBody(s), FieldsTo(s[i].a, 8), i, WidthTo(k), WidthTo(k + 1));
  }

  /**
   A reader that follows the index recovers exactly the coordinates of the resolved reports, in order, and finds each one's
   attributes in the row of the same number: record i sits at byte 100 + 28 i, the index says so exactly as long as its word
   offset is below 2^31, and field k of row i is the text of the report's k-th attribute, cut and padded to its width.
   */
  lemma ReaderRecovers(rows: seq<Row>, h: Hull, today: Date, i: nat, k: nat)
    requires i < |Resolved(rows)| && k < 8
    ensures var s := Resolved(rows);
      var offset := OffsetOf(ShxFile(s, h), i);
      && (2 * offset == 100 + 28 * i <==> 50 + 14 * i < HALF)
      && (50 + 14 * i < HALF ==> 2 * offset + 28 <= |ShpFile(s, h)|
                                 && PointAt(ShpFile(s, h), 2 * offset) == (s[i].x, s[i].y))
    ensures var s, at := Resolved(rows), 289 + 203 * i + 1;
      && at + WidthTo(k) <= at + WidthTo(k + 1) <= |DbfFile(s, today)|
      && DbfFile(s, today)[at + WidthTo(k)..at + WidthTo(k + 1)] == Fixed(FieldText(s[i].a, k), FIELD_WIDTHS[k])
  {
    FollowIndex(Resolved(rows), h, i);
    CellReads(Resolved(rows), today, i, k);
  }

  lemma FollowIndex(s: seq<Shape>, h: Hull, i: nat)
    requires i < |s|
    ensures |ShxFile(s, h)| == 100 + 8 * |s| && |ShpFile(s, h)| == 100 + 28 * |s|
    ensures 2 * OffsetOf(ShxFile(s, h), i) == 100 + 28 * i <==> 50 + 14 * i < HALF
    ensures PointAt(ShpFile(s, h), 100 + 28 * i) == (s[i].x, s[i].y)
  {
    OffsetReads(s, h, i);
    RecordReads(s, h, i);
    PointReads(ShpFile(s, h), 100 + 28 * i, i + 1, s[i]);
  }

  lemma HeaderLength(n: nat, h: Hull)
    ensures ShpHeader(n, h)[24..28] == Be32(n / 2)
  {
    var start := ShpStart(n);
    ThirdPart(Be32(9994), Zeros(20), Be32(n / 2), Le32(1000), Le32(1));
    FrontSlice(start + Box(h), Zeros(32), 24, 28);
    FrontSlice(start, Box(h), 24, 28);
  }

  lemma ThirdPart(a: seq<Byte>, b: seq<Byte>, c: seq<Byte>, d: seq<Byte>, e: seq<Byte>)
    requires |a| == 4 && |b| == 20 && |c| == 4
    ensures (a + b + c + d + e)[24..28] == c
  {
    FrontSlice(a + b + c + d, e, 24, 28);
    FrontSlice(a + b + c, d, 24, 28);
    BackSlice(a + b, c);
  }

  lemma DbfCount(count: nat, today: Date)
    ensures DbfHeader(count, today)[4..8] == Le32(count)
    ensures DbfHeader(count, today)[8..10] == Le16(289) && DbfHeader(count, today)[10..12] == Le16(203)
  {
    var sizes := DbfSizes(count, today);
    FrontSlice(sizes, Zeros(20) + Descriptors(8) + [0x0D], 4, 8);
    FrontSlice(sizes, Zeros(20) + Descriptors(8) + [0x0D], 8, 10);
    FrontSlice(sizes, Zeros(20) + Descriptors(8) + [0x0D], 10, 12);
    SizeSlices(DbfStart(today), Le32(count), Le16(289), Le16(203));
  }

  lemma SizeSlices(a: seq<Byte>, b: seq<Byte>, c: seq<Byte>, d: seq<Byte>)
    requires |a| == 4 && |b| == 4 && |c| == 2 && |d| == 2
    ensures (a + b + c + d)[4..8] == b && (a + b + c + d)[8..10] == c && (a + b + c + d)[10..12] == d
  {}

  /** The length word of a member with this header says its size exactly as long as half of it is below 2^31. */
  lemma LengthWord(n: nat, h: Hull, body: seq<Byte>)
    requires n % 2 == 0
    ensures 2 * ReadBe32((ShpHeader(n, h) + body)[24..28]) == n <==> n / 2 < HALF
  {
    HeaderLength(n, h);
    FrontSlice(ShpHeader(n, h), body, 24, 28);
    Exact32(n / 2);
  }

  lemma ShpLength(s: seq<Shape>, h: Hull)
    ensures |ShpFile(s, h)| == 100 + 28 * |s|
    ensures 2 * ReadBe32(ShpFile(s, h)[24..28]) == |ShpFile(s, h)| <==> 50 + 14 * |s| < HALF
  {
    LengthWord(ShpSize(|s|), h, ShpBody(s));
  }

  lemma ShxLength(s: seq<Shape>, h: Hull)
    ensures |ShxFile(s, h)| == 100 + 8 * |s|
    ensures 2 * ReadBe32(ShxFile(s, h)[24..28]) == |ShxFile(s, h)| <==> 50 + 4 * |s| < HALF
  {
    LengthWord(ShxSize(|s|), h, ShxBody(|s|));
  }

  lemma DbfLength(s: seq<Shape>, today: Date)
    ensures var dbf := DbfFile(s, today);
      && |dbf| == 289 + 203 * |s| + 1 && dbf[|dbf| - 1] == 0x1A
      && (FromLittleEndian(dbf[4..8]) == |s| <==> |s| < WORD) && dbf[8..10] == Le16(289) && dbf[10..12] == Le16(203)
  {
    DbfCount(|s|, today);
    var head, body := DbfHeader(|s|, today), DbfBody(s) + [0x1A];
    assert DbfFile(s, today) == head + body;
    FrontSlice(head, body, 4, 8);
    FrontSlice(head, body, 8, 10);
    FrontSlice(head, body, 10, 12);
    Exact32(|s|);
  }

  /**
   The three headers agree with their bodies and with each other: the length words are half the member sizes exactly as long
   as the .shp's fits 31 bits, the table's header size and record size add up to its size, its count says so exactly as long
   as it fits 32 bits, and all three hold one record per resolved report.
   */
  lemma HeadersAgree(rows: seq<Row>, h: Hull, today: Date)
    ensures var s := Resolved(rows);
      var shp, shx, dbf := ShpFile(s, h), ShxFile(s, h), DbfFile(s, today);
      && (|shp| - 100) / 28 == (|shx| - 100) / 8 == (|dbf| - 290) / 203 == |s|
      && (FromLittleEndian(dbf[4..8]) == |s| <==> |s| < WORD)
      && (2 * ReadBe32(shp[24..28]) == |shp| && 2 * ReadBe32(shx[24..28]) == |shx| <==> 50 + 14 * |s| < HALF)
      && dbf[8..10] == Le16(289) && dbf[10..12] == Le16(203) && |dbf| == 289 + 203 * |s| + 1 && dbf[|dbf| - 1] == 0x1A
  {
    var s := Resolved(rows);
    ShpLength(s, h);
    ShxLength(s, h);
    DbfLength(s, today);
  }

  lemma FrontSlice(a: seq<Byte>, b: seq<Byte>, i: nat, j: nat)
    requires i <= j <= |a|
    ensures (a + b)[i..j] == a[i..j]
  {}

  lemma {:induction false} DbfRecordAt(s: seq<Shape>, i: nat)
    requires i < |s|
    ensures DbfBody(s)[203 * i..203 * i + 203] == DbfRecord(s[i].a)
  {
    if i < |s| - 1 {
      DbfRecordAt(Front(s), i);
      assert DbfBody(s)[203 * i..203 * i + 203] == DbfBody(Front(s))[203 * i..203 * i + 203];
    }
  }

  lemma {:induction false} WidthsGrow(k: nat, n: nat)
    requires k <= n <= 8
    ensures WidthTo(k) <= WidthTo(n)
  {
    if k < n {
      WidthsGrow(k, n - 1);
    }
  }

  /** Field k of a record sits where the widths before it put it, and ends where field k + 1 begins. */
  lemma {:induction false} FieldAt(a: Attributes, n: nat, k: nat)
    requires k < n <= 8
    ensures |FieldsTo(a, n)| == WidthTo(n) && WidthTo(k) <= WidthTo(k + 1) <= WidthTo(n)
    ensures FieldsTo(a, n)[WidthTo(k)..WidthTo(k + 1)] == Fixed(FieldText(a, k), FIELD_WIDTHS[k])
  {
    FieldsWidth(a, n);
    FieldsWidth(a, n - 1);
    WidthsGrow(k, k + 1);
    WidthsGrow(k + 1, n);
    LastField(a, n);
    if k < n - 1 {
      FieldAt(a, n - 1, k);
      FrontSlice(FieldsTo(a, n - 1), Fixed(FieldText(a, n - 1), FIELD_WIDTHS[n - 1]), WidthTo(k), WidthTo(k + 1));
    }
  }

  lemma LastField(a: Attributes, n: nat)
    requires 1 <= n <= 8
    ensures |FieldsTo(a, n)| == WidthTo(n) && WidthTo(n - 1) <= WidthTo(n)
    ensures FieldsTo(a, n)[WidthTo(n - 1)..WidthTo(n)] == Fixed(FieldText(a, n - 1), FIELD_WIDTHS[n - 1])
  {
    FieldsWidth(a, n);
    FieldsWidth(a, n - 1);
    BackSlice(FieldsTo(a, n - 1), Fixed(FieldText(a, n - 1), FIELD_WIDTHS[n - 1]));
  }

  lemma BackSlice(a: seq<Byte>, b: seq<Byte>)
    ensures (a + b)[|a|..|a| + |b|] == b
  {}

  // ---- the bytes that never change -----------------------------------------------------------

  lemma Words()
    ensures Be32(9994) == [0x00, 0x00, 0x27, 0x0A] && Be32(10) == [0x00, 0x00, 0x00, 0x0A]
    ensures Le32(1000) == [0xE8, 0x03, 0x00, 0x00] && Le32(1) == [0x01, 0x00, 0x00, 0x00]
  {
    assert BigEndian(9994, 4) == BigEndian(39, 3) + [0x0A] && BigEndian(39, 3) == BigEndian(0, 2) + [39];
    assert BigEndian(10, 4) == BigEndian(0, 3) + [10];
    assert BigEndian(0, 2) == [0, 0] && BigEndian(0, 3) == [0, 0, 0];
    assert LittleEndian(1000, 4) == [0xE8] + LittleEndian(3, 3) && LittleEndian(3, 3) == [3] + LittleEndian(0, 2);
    assert LittleEndian(1, 4) == [1] + LittleEndian(0, 3) && LittleEndian(0, 2) == [0, 0] && LittleEndian(0, 3) == [0, 0, 0];
  }

  /** File code 9994, twenty zero bytes, version 1000, shape type 1, the box, and zeros for the ranges a point does not have. */
  predicate HeaderBytes(b: seq<Byte>, h: Hull) {
    && |b| >= 100 && b[..4] == [0x00, 0x00, 0x27, 0x0A] && (forall i :: 4 <= i < 24 ==> b[i] == 0)
    && b[28..32] == [0xE8, 0x03, 0x00, 0x00] && b[32..36] == [0x01, 0x00, 0x00, 0x00]
    && FromLittleEndian(b[36..44]) == h.minX && FromLittleEndian(b[44..52]) == h.minY
    && FromLittleEndian(b[52..60]) == h.maxX && FromLittleEndian(b[60..68]) == h.maxY
    && forall i :: 68 <= i < 100 ==> b[i] == 0
  }

  lemma StartParts(a: seq<Byte>, z: seq<Byte>, n: seq<Byte>, v: seq<Byte>, t: seq<Byte>)
    requires |a| == 4 && |z| == 20 && |n| == 4 && |v| == 4 && |t| == 4
    ensures var s := a + z + n + v + t; s[..4] == a && s[4..24] == z && s[28..32] == v && s[32..36] == t
  {}

  lemma HeaderParts(s: seq<Byte>, a: seq<Byte>, b: seq<Byte>, c: seq<Byte>, d: seq<Byte>, z: seq<Byte>, body: seq<Byte>)
    requires |s| == 36 && |a| == |b| == |c| == |d| == 8 && |z| == 32
    ensures var f := s + (a + b + c + d) + z + body;
      f[..36] == s && f[36..44] == a && f[44..52] == b && f[52..60] == c && f[60..68] == d && f[68..100] == z
  {}

  lemma HeaderIs(n: nat, h: Hull, body: seq<Byte>)
    ensures HeaderBytes(ShpHeader(n, h) + body, h)
  {
    Words();
    var start, f := ShpStart(n), ShpHeader(n, h) + body;
    StartParts(Be32(9994), Zeros(20), Be32(n / 2), Le32(1000), Le32(1));
    HeaderParts(start, Le64(h.minX), Le64(h.minY), Le64(h.maxX), Le64(h.maxY), Zeros(32), body);
    assert f[..4] == f[..36][..4] && f[28..32] == f[..36][28..32] && f[32..36] == f[..36][32..36];
    forall i | 4 <= i < 24 ensures f[i] == 0 {
      assert f[i] == f[..36][i] == start[4..24][i - 4];
    }
    forall i | 68 <= i < 100 ensures f[i] == 0 {
      assert f[i] == f[68..100][i - 68];
    }
    Read64(h.minX);
    Read64(h.minY);
    Read64(h.maxX);
    Read64(h.maxY);
  }

  lemma RecordBytes(s: seq<Shape>, h: Hull, i: nat)
    requires i < |s|
    ensures |ShpFile(s, h)| == 100 + 28 * |s|
    ensures var at := 100 + 28 * i;
      && ShpFile(s, h)[at..at + 4] == Be32(i + 1)
      && ShpFile(s, h)[at + 4..at + 8] == Be32(10) && ShpFile(s, h)[at + 8..at + 12] == Le32(1)
  {
    var at, shp := 100 + 28 * i, ShpFile(s, h);
    RecordReads(s, h, i);
    RecordParts(i + 1, s[i]);
    RecordFront(shp, at, Record(i + 1, s[i]));
  }

  lemma RecordFront(b: seq<Byte>, at: nat, r: seq<Byte>)
    requires at + 28 <= |b| && b[at..at + 28] == r
    ensures b[at..at + 4] == r[..4] && b[at + 4..at + 8] == r[4..8] && b[at + 8..at + 12] == r[8..12]
  {
    SliceOfSlice(b, at, at + 28, 0, 4);
    SliceOfSlice(b, at, at + 28, 4, 8);
    SliceOfSlice(b, at, at + 28, 8, 12);
  }

  lemma EntryBytes(s: seq<Shape>, h: Hull, i: nat)
    requires i < |s|
    ensures |ShxFile(s, h)| == 100 + 8 * |s|
    ensures ShxFile(s, h)[100 + 8 * i + 4..100 + 8 * i + 8] == Be32(10)
  {
    EntryAt(|s|, i);
    SliceInside(ShpHeader(ShxSize(|s|), h), ShxBody(|s|), 8 * i + 4, 8 * i + 8);
    SliceOfSlice(ShxBody(|s|), 8 * i, 8 * i + 8, 4, 8);
    assert IndexEntry(WordOffset(i))[4..8] == Be32(10);
  }

  /** The headers of both geometry members; and the content length of ten words in every record, and in its index entry. */
  lemma GeometryBytes(s: seq<Shape>, h: Hull, i: nat)
    requires i < |s|
    ensures HeaderBytes(ShpFile(s, h), h) && HeaderBytes(ShxFile(s, h), h)
    ensures |ShpFile(s, h)| == 100 + 28 * |s| && |ShxFile(s, h)| == 100 + 8 * |s|
    ensures var at := 100 + 28 * i;
      && ShpFile(s, h)[at..at + 4] == Be32(i + 1)
      && ShpFile(s, h)[at + 4..at + 8] == [0x00, 0x00, 0x00, 0x0A]
      && ShpFile(s, h)[at + 8..at + 12] == [0x01, 0x00, 0x00, 0x00]
      && ShxFile(s, h)[100 + 8 * i + 4..100 + 8 * i + 8] == [0x00, 0x00, 0x00, 0x0A]
  {
    HeaderIs(ShpSize(|s|), h, ShpBody(s));
    HeaderIs(ShxSize(|s|), h, ShxBody(|s|));
    RecordBytes(s, h, i);
    EntryBytes(s, h, i);
    Words();
  }

  /** The eight fields: their names, their widths, and what they show. */
  lemma FieldsShow(a: Attributes)
    ensures FIELD_NAMES == ["id", "damage", "infra", "hazard", "verif", "pluscode", "clusters", "timestamp"]
    ensures FIELD_WIDTHS == [24, 12, 40, 40, 10, 16, 40, 20]
    ensures FieldText(a, 0) == a.id && FieldText(a, 2) == Semicolons(a.infra) && FieldText(a, 3) == Semicolons(a.hazard)
    ensures FieldText(a, 1) == if a.tier == "partial" then "Partial" else if a.tier == "complete" then "Complete" else "Minimal"
    ensures FieldText(a, 4) == a.verification && FieldText(a, 6) == Semicolons(a.clusters) && FieldText(a, 7) == a.timestamp
    ensures FieldText(a, 5) == if a.plusCode.Some? then a.plusCode.value else ""
  {}

  lemma {:induction false} DescriptorAt(n: nat, k: nat)
    requires k < n <= 8
    ensures Descriptors(n)[32 * k..32 * k + 32] == Descriptor(k)
  {
    if k < n - 1 {
      DescriptorAt(n - 1, k);
      FrontSlice(Descriptors(n - 1), Descriptor(n - 1), 32 * k, 32 * k + 32);
    }
  }

  lemma DescriptorParts(k: nat)
    requires k < 8
    ensures var d := Descriptor(k);
      && (forall i :: 0 <= i < 11 ==> d[i] == if i < |FIELD_NAMES[k]| then Ascii(FIELD_NAMES[k][i]) else 0)
      && d[11] == 'C' as int && d[16] == FIELD_WIDTHS[k] && d[17] == 0
  {}

  lemma DbfParts(sizes: seq<Byte>, ds: seq<Byte>, body: seq<Byte>)
    requires |sizes| == 12 && |ds| == 256
    ensures var b := sizes + (Zeros(20) + ds + [0x0D]) + body;
      b[..12] == sizes && b[32..288] == ds && b[288] == 0x0D && b[289..] == body
  {}

  lemma DescriptorInside(b: seq<Byte>, ds: seq<Byte>, d: seq<Byte>, k: nat)
    requires k < 8 && |b| >= 289 && b[32..288] == ds && |d| == 32 && ds[32 * k..32 * k + 32] == d
    ensures forall j :: 0 <= j < 32 ==> b[32 + 32 * k + j] == d[j]
  {
    forall j | 0 <= j < 32 ensures b[32 + 32 * k + j] == d[j] {
      assert b[32 + 32 * k + j] == b[32..288][32 * k + j] == ds[32 * k..32 * k + 32][j];
    }
  }

  lemma FieldDescribed(b: seq<Byte>, k: nat)
    requires k < 8 && |b| >= 289 && b[32..288] == Descriptors(8)
    ensures var at := 32 + 32 * k;
      && (forall j :: 0 <= j < 11 ==> b[at + j] == if j < |FIELD_NAMES[k]| then Ascii(FIELD_NAMES[k][j]) else 0)
      && b[at + 11] == 'C' as int && b[at + 16] == FIELD_WIDTHS[k] && b[at + 17] == 0
  {
    DescriptorAt(8, k);
    DescriptorParts(k);
    DescriptorInside(b, Descriptors(8), Descriptor(k), k);
  }

  lemma TableParts(s: seq<Shape>, today: Date)
    ensures var dbf := DbfFile(s, today);
      && |dbf| == 290 + 203 * |s|
      && dbf[..4] == DbfStart(today) && dbf[32..288] == Descriptors(8) && dbf[288] == 0x0D
      && dbf[289..] == DbfBody(s) + [0x1A]
  {
    var dbf, ds, body, sizes := DbfFile(s, today), Descriptors(8), DbfBody(s) + [0x1A], DbfSizes(|s|, today);
    DbfParts(sizes, ds, body);
    assert dbf == sizes + (Zeros(20) + ds + [0x0D]) + body;
    assert dbf[..4] == dbf[..12][..4];
  }

  /** The table header says dBASE III and the day, and describes each field by its name, as text, with its width. */
  lemma TableBytes(s: seq<Shape>, today: Date, k: nat)
    requires k < 8
    ensures var dbf, at := DbfFile(s, today), 32 + 32 * k;
      && |dbf| == 290 + 203 * |s|
      && dbf[..4] == [0x03, (today.year - 1900) % 256, today.month % 256, today.day % 256] && dbf[288] == 0x0D
      && (forall j :: 0 <= j < 11 ==> dbf[at + j] == if j < |FIELD_NAMES[k]| then Ascii(FIELD_NAMES[k][j]) else 0)
      && dbf[at + 11] == 'C' as int && dbf[at + 16] == FIELD_WIDTHS[k] && dbf[at + 17] == 0
  {
    TableParts(s, today);
    FieldDescribed(DbfFile(s, today), k);
  }

  /** Every record starts with the flag of a row that is not deleted. */
  lemma RowFlag(s: seq<Shape>, today: Date, i: nat)
    requires i < |s|
    ensures |DbfFile(s, today)| == 290 + 203 * |s| && DbfFile(s, today)[289 + 203 * i] == ' ' as int
  {
    TableParts(s, today);
    DbfRecordAt(s, i);
    var dbf, body := DbfFile(s, today), DbfBody(s) + [0x1A];
    assert dbf[289 + 203 * i] == dbf[289..][203 * i] == body[203 * i] == DbfBody(s)[203 * i..203 * i + 203][0];
  }

  // ---- the writers ---------------------------------------------------------------------------

  /** asciiFixed: a cell of spaces, overwritten from the front. */
  method AsciiFixed(s: string, width: nat) returns (out: array<Byte>)
    ensures fresh(out) && out.Length == width
    ensures forall i :: 0 <= i < width && i < |s| ==>
              out[i] == if ' ' <= s[i] <= '~' then s[i] as int else '?' as int
    ensures forall i :: |s| <= i < width ==> out[i] == ' ' as int
    ensures out[..] == Fixed(s, width)
  {
    out := new Byte[width](i => 0x20);
    var j := 0;
    while j < |s| && j < width
      invariant j <= |s| && j <= width
      invariant forall i :: 0 <= i < j ==> out[i] == Ascii(s[i])
      invariant forall i :: j <= i < width ==> out[i] == 0x20
    {
      var c := s[j] as int;
      if c < 0x20 || c > 0x7E {
        c := 0x3F;
      }
      out[j] := c;
      j := j + 1;
    }
  }

  /** PutUint32, PutUint64: overwrite the front of a stretch that is still zero. */
  method Put(h: array<Byte>, at: nat, b: seq<Byte>)
    requires at + |b| <= h.Length && h[at..] == Zeros(h.Length - at)
    modifies h
    ensures h[..at + |b|] == old(h[..at]) + b
    ensures h[at + |b|..] == Zeros(h.Length - at - |b|)
  {
    for i := 0 to |b|
      invariant h[..at] == old(h[..at])
      invariant forall k :: 0 <= k < i ==> h[at + k] == b[k]
      invariant forall k :: at + i <= k < h.Length ==> h[k] == 0
    {
      h[at + i] := b[i];
    }
  }

  /** Bytes left at zero. */
  lemma Skipped(h: array<Byte>, at: nat, n: nat)
    requires at + n <= h.Length && h[at..] == Zeros(h.Length - at)
    ensures h[..at + n] == h[..at] + Zeros(n) && h[at + n..] == Zeros(h.Length - at - n)
  {
    assert forall k :: at <= k < h.Length ==> h[k] == h[at..][k - at];
  }

  method PutBox(h: array<Byte>, at: nat, box: Hull)
    requires at + 32 <= h.Length && h[at..] == Zeros(h.Length - at)
    modifies h
    ensures h[..at + 32] == old(h[..at]) + Box(box)
    ensures h[at + 32..] == Zeros(h.Length - at - 32)
  {
    Put(h, at, Le64(box.minX));
    Put(h, at + 8, Le64(box.minY));
    Put(h, at + 16, Le64(box.maxX));
    Put(h, at + 24, Le64(box.maxY));
  }

  method PutStart(h: array<Byte>, fileLenBytes: nat)
    requires h.Length == 100 && h[0..] == Zeros(100)
    modifies h
    ensures h[..36] == ShpStart(fileLenBytes) && h[36..] == Zeros(64)
  {
    Put(h, 0, Be32(9994));
    assert h[..4] == Be32(9994);
    Skipped(h, 4, 20);
    Put(h, 24, Be32(fileLenBytes / 2));
    Put(h, 28, Le32(1000));
    Put(h, 32, Le32(1));
  }

  /** shpHeader: a zeroed buffer filled field by field. */
  method FillShpHeader(fileLenBytes: nat, box: Hull) returns (h: array<Byte>)
    ensures fresh(h) && h[..] == ShpHeader(fileLenBytes, box)
  {
    h := new Byte[100](i => 0);
    assert h[0..] == Zeros(100);
    PutStart(h, fileLenBytes);
    PutBox(h, 36, box);
    Skipped(h, 68, 32);
    assert h[..] == h[..100];
  }

  method WriteDescriptors() returns (b: seq<Byte>)
    ensures b == Descriptors(8)
  {
    b := [];
    for k := 0 to 8
      invariant b == Descriptors(k)
    {
      var d := NameBytes(FIELD_NAMES[k]) + [0x43] + Zeros(4) + [FIELD_WIDTHS[k]] + [0] + Zeros(14);
      b := b + d;
    }
  }

  method RecordSize() returns (n: nat)
    ensures n == 203
  {
    n := 1;
    for k := 0 to 8
      invariant n == 1 + WidthTo(k)
    {
      var width: int := FIELD_WIDTHS[k];
      n := n + width;
    }
    AllWidths();
  }

  /** dbfHeader */
  method WriteDbfHeader(count: nat, today: Date) returns (b: seq<Byte>)
    ensures b == DbfHeader(count, today)
  {
    var recordSize := RecordSize();
    var headerSize := 32 + 32 * |FIELD_NAMES| + 1;
    var descriptors := WriteDescriptors();
    b := DbfStart(today) + Le32(count) + Le16(headerSize) + Le16(recordSize);
    b := b + (Zeros(20) + descriptors + [0x0D]);
  }

  lemma BodiesAppend(s: seq<Shape>, p: Shape)
    ensures ShpBody(s + [p]) == ShpBody(s) + Record(|s| + 1, p)
    ensures WordOffset(|s| + 1) == WordOffset(|s|) + 28 / 2
    ensures ShxBody(|s| + 1) == ShxBody(|s|) + IndexEntry(WordOffset(|s|))
    ensures DbfBody(s + [p]) == DbfBody(s) + DbfRecord(p.a)
  {
    assert Front(s + [p]) == s;
  }

  method WritePoint(number: nat, p: Shape) returns (b: seq<Byte>)
    ensures b == Record(number, p)
  {
    b := Be32(number);
    b := b + Be32(10);
    b := b + Le32(1);
    b := b + Le64(p.x);
    b := b + Le64(p.y);
  }

  method WriteIndex(offsetWords: nat) returns (b: seq<Byte>)
    ensures b == IndexEntry(offsetWords)
  {
    b := Be32(offsetWords);
    b := b + Be32(10);
  }

  method Widen(box0: Hull, count: nat, p: Shape, ghost s: seq<Shape>) returns (box: Hull)
    requires count == |s| && HullOf(s, box0)
    ensures HullOf(s + [p], box)
  {
    if count == 0 {
      box := Hull(p.x, p.y, p.x, p.y);
      FirstHull(p);
      assert s + [p] == [p];
    } else {
      HullGrows(s, box0, p);
      box := Hull(MinFloat(box0.minX, p.x), MinFloat(box0.minY, p.y), MaxFloat(box0.maxX, p.x), MaxFloat(box0.maxY, p.y));
    }
  }

  lemma ResolvedOne(rows: seq<Row>, i: nat)
    requires i < |rows|
    ensures rows[i] == None ==> Resolved(rows[..i + 1]) == Resolved(rows[..i])
    ensures rows[i].Some? ==> Resolved(rows[..i + 1]) == Resolved(rows[..i]) + [rows[i].value]
  {
    assert Front(rows[..i + 1]) == rows[..i];
  }

  /** The three bodies and their running totals, after the shapes `s`. */
  datatype Bodies = Bodies(shp: seq<Byte>, shx: seq<Byte>, dbf: seq<Byte>, box: Hull, count: nat, offsetWords: nat)

  ghost predicate Staged(s: seq<Shape>, t: Bodies) {
    && t.count == |s| && t.offsetWords == WordOffset(|s|) && HullOf(s, t.box)
    && t.shp == ShpBody(s) && t.shx == ShxBody(|s|) && t.dbf == DbfBody(s)
  }

  lemma StagedNothing(t: Bodies)
    requires t == Bodies([], [], [], Hull(0, 0, 0, 0), 0, 50)
    ensures Staged([], t)
  {}

  /** What the row callback does for a report with a point. */
  method StagePoint(t: Bodies, p: Shape, ghost s: seq<Shape>) returns (t': Bodies)
    requires Staged(s, t)
    ensures Staged(s + [p], t')
  {
    BodiesAppend(s, p);
    var box := Widen(t.box, t.count, p, s);
    var count := t.count + 1;
    var point := WritePoint(count, p);
    var entry := WriteIndex(t.offsetWords);
    var record := WriteRecord(p.a);
    t' := Bodies(t.shp + point, t.shx + entry, t.dbf + record, box, count, t.offsetWords + 28 / 2);
    assert |s + [p]| == |s| + 1;
  }

  /** The staged bodies: one pass over the rows; a report without a point is skipped. */
  method WriteBodies(rows: seq<Row>) returns (t: Bodies)
    ensures Staged(Resolved(rows), t)
  {
    t := Bodies([], [], [], Hull(0, 0, 0, 0), 0, 100 / 2);
    ghost var s: seq<Shape> := [];
    StagedNothing(t);
    for i := 0 to |rows|
      invariant s == Resolved(rows[..i]) && Staged(s, t)
    {
      ResolvedOne(rows, i);
      if rows[i].Some? {
        t := StagePoint(t, rows[i].value, s);
        s := s + [rows[i].value];
      }
    }
    assert rows[..|rows|] == rows;
  }

  method Headed(fileLenBytes: nat, box: Hull, body: seq<Byte>) returns (b: seq<Byte>)
    ensures b == ShpHeader(fileLenBytes, box) + body
  {
    var h := FillShpHeader(fileLenBytes, box);
    b := h[..] + body;
  }

  /** The three members, each body behind the header that the final count and box give. */
  method Assemble(shpBody: seq<Byte>, shxBody: seq<Byte>, dbfBody: seq<Byte>, box: Hull, count: nat, today: Date)
    returns (shp: seq<Byte>, shx: seq<Byte>, dbf: seq<Byte>)
    ensures shp == ShpHeader(ShpSize(count), box) + shpBody
    ensures shx == ShpHeader(ShxSize(count), box) + shxBody
    ensures dbf == DbfHeader(count, today) + dbfBody + [0x1A]
  {
    shp := Headed(ShpSize(count), box, shpBody);
    shx := Headed(ShxSize(count), box, shxBody);
    var dbfHead := WriteDbfHeader(count, today);
    dbf := dbfHead + dbfBody + [0x1A];
  }

  lemma {:induction false} NoneResolved(rows: seq<Row>)
    requires forall i :: 0 <= i < |rows| ==> rows[i] == None
    ensures Resolved(rows) == []
  {
    if rows != [] {
      NoneResolved(Front(rows));
    }
  }

  /** StreamShapefile: stage the bodies in one pass, then assemble. */
  method StreamShapefile(rows: seq<Row>, today: Date)
    returns (shp: seq<Byte>, shx: seq<Byte>, dbf: seq<Byte>, box: Hull)
    ensures HullOf(Resolved(rows), box)
    ensures (forall i :: 0 <= i < |rows| ==> rows[i] == None) ==> box == Hull(0, 0, 0, 0)
    ensures shp == ShpFile(Resolved(rows), box) && shx == ShxFile(Resolved(rows), box) && dbf == DbfFile(Resolved(rows), today)
  {
    var t := WriteBodies(rows);
    if forall i :: 0 <= i < |rows| ==> rows[i] == None {
      NoneResolved(rows);
    }
    box := t.box;
    shp, shx, dbf := Assemble(t.shp, t.shx, t.dbf, box, t.count, today);
  }

  lemma FirstHull(p: Shape)
    ensures TightHull([p], Hull(p.x, p.y, p.x, p.y))
  {
    assert [p][0] == p;
  }

  /** One table record: the deletion flag, then each field in its fixed width. */
  method WriteRecord(a: Attributes) returns (b: seq<Byte>)
    ensures b == DbfRecord(a)
  {
    b := [0x20];
    for k := 0 to 8
      invariant b == [0x20] + FieldsTo(a, k)
    {
      var cell := AsciiFixed(FieldText(a, k), FIELD_WIDTHS[k]);
      b := b + cell[..];
    }
  }
}
