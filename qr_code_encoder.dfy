/**
 * Preparation of a QR payload and its rasterisation into a pixel buffer:
 * the `QRCodeEncoder` of the second sample application.
 *
 * The encoder reads a request from a builder (what kind of data it is, the raw
 * contents, an optional contact URI or bundle), works out the text that is to be
 * put into the symbol, and later turns the symbol's bit matrix into a row-major
 * buffer of ARGB pixels.
 */
module QRCodeEncoding {
  import opened Wrappers

  // ---------------------------------------------------------------------------
  // Java values
  // ---------------------------------------------------------------------------

  /** A Java `int`. */
  newtype int32 = x: int | -0x8000_0000 <= x < 0x8000_0000

  const INT_MAX: int := 0x7FFF_FFFF

  /** The colours 0xFFFFFFFF and 0xFF000000, read as signed 32-bit ints. */
  const WHITE: int32 := -1
  const BLACK: int32 := -0x0100_0000

  /** Java's string conversion of a possibly null `String` (`"" + s`). */
  function JavaText(s: Option<string>): string
  {
    if s.None? then "null" else s.value
  }

  // ---------------------------------------------------------------------------
  // The request
  // ---------------------------------------------------------------------------

  /** ZXing's `ParsedResultType`: the kind of data to encode. */
  datatype ParsedResultType =
    | AddressBook | EmailAddress | Product | Uri | Text | Geo
    | Tel | Sms | Calendar | Wifi | Isbn | Vin

  /** ZXing's `BarcodeFormat`. */
  datatype BarcodeFormat =
    | Aztec | Codabar | Code39 | Code93 | Code128 | DataMatrix | Ean8 | Ean13
    | Itf | MaxiCode | Pdf417 | QrCode | Rss14 | RssExpanded | UpcA | UpcE
    | UpcEanExtension

  /** An Android content URI, opaque here. */
  datatype ContentUri = ContentUri(text: string)

  /**
   * A value stored in an Android `Bundle`, as far as the encoder reads it. A float
   * is kept as its IEEE-754 bit pattern and the text `Float.toString` gives for it;
   * any other object is kept as the text its `toString` gives. A key may also be
   * mapped to null (`putString(key, null)`): the entry exists and counts towards
   * the bundle's size, but every getter reads it as absent.
   */
  datatype BundleValue =
    | NullValue
    | StringValue(s: string)
    | FloatValue(bits: bv32, text: string)
    | OtherValue(text: string)

  type Bundle = map<string, BundleValue>

  /** The bit pattern of `Float.MAX_VALUE`, the "absent" default for coordinates. */
  const FLOAT_MAX_VALUE_BITS: bv32 := 0x7F7F_FFFF

  /** Keys of `ContactsContract.Intents.Insert` read from a contact bundle. */
  const NAME_KEY: string := "name"
  const COMPANY_KEY: string := "company"
  const POSTAL_KEY: string := "postal"

  /** `Bundle.getString`: the value when it is a string, null otherwise. */
  function GetString(b: Bundle, key: string): Option<string>
  {
    if key in b && b[key].StringValue? then Some(b[key].s) else None
  }

  /** `Bundle.getFloat(key, default)`, on bit patterns. */
  function GetFloatBits(b: Bundle, key: string, default: bv32): bv32
  {
    if key in b && b[key].FloatValue? then b[key].bits else default
  }

  /** `bundle.get(key)` followed by `toString()` when it is not null. */
  function BundleText(b: Bundle, key: string): Option<string>
  {
    if key !in b then None
    else match b[key]
      case NullValue => None
      case StringValue(s) => Some(s)
      case FloatValue(_, text) => Some(text)
      case OtherValue(text) => Some(text)
  }

  /** What the caller put into the builder and the encoder never changes. */
  datatype Payload = Payload(
    resultType: ParsedResultType,
    contents: Option<string>,
    addressBookUri: Option<ContentUri>,
    bundle: Option<Bundle>,
    useVCard: bool)

  // ---------------------------------------------------------------------------
  // Collaborators outside this model
  // ---------------------------------------------------------------------------

  /** The arguments a `ContactEncoder` receives. */
  datatype ContactFields = ContactFields(
    names: seq<Option<string>>,
    organization: Option<string>,
    addresses: seq<Option<string>>,
    phones: seq<Option<string>>,
    phoneTypes: seq<Option<string>>,
    emails: seq<Option<string>>,
    urls: Option<seq<string>>,
    note: Option<string>)

  /** A bit matrix: `height` rows of `width` bits; `rows[y][x]` is `get(x, y)`. */
  datatype Matrix = Matrix(width: nat, height: nat, rows: seq<seq<bool>>)

  ghost predicate Rectangular(rows: seq<seq<bool>>, width: nat)
  {
    forall y :: 0 <= y < |rows| ==> |rows[y]| == width
  }

  type BitMatrix = m: Matrix | m.width <= INT_MAX && m.height <= INT_MAX
    && |m.rows| == m.height && Rectangular(m.rows, m.width)
    witness Matrix(0, 0, [])

  /** What `MultiFormatWriter.encode` does: a matrix, or one of its two exceptions. */
  datatype WriterResult = Encoded(matrix: BitMatrix) | IllegalArgument | WriterException

  /**
   * The foreign code the encoder calls: `ParserUriToVCard.parserUri` and its key
   * arrays, the two contact encoders (each returns the pair `encoded[0]`,
   * `encoded[1]`), and `MultiFormatWriter.encode(contents, format, dimension,
   * dimension, hints)` with the character-set hint as its last argument.
   */
  datatype Collaborators = Collaborators(
    parseUri: ContentUri -> Option<Bundle>,
    vCard: ContactFields -> (string, string),
    meCard: ContactFields -> (string, string),
    write: (string, Option<BarcodeFormat>, int32, Option<string>) -> WriterResult,
    phoneKeys: seq<string>,
    phoneTypeKeys: seq<string>,
    emailKeys: seq<string>,
    urlKey: string,
    noteKey: string)

  // ---------------------------------------------------------------------------
  // The contents to encode
  // ---------------------------------------------------------------------------

  /** The list `getAllBundleValues` builds: one entry per key, in key order. */
  function AllBundleValues(b: Bundle, keys: seq<string>): (r: seq<Option<string>>)
    ensures |r| == |keys|
    ensures forall i :: 0 <= i < |keys| && (keys[i] !in b || b[keys[i]].NullValue?) ==> r[i].None?
    ensures forall i :: 0 <= i < |keys| && keys[i] in b && !b[keys[i]].NullValue? ==> r[i].Some?
  {
    seq(|keys|, i requires 0 <= i < |keys| => BundleText(b, keys[i]))
  }

  /** The bundle an address-book request is read from: the parsed URI, else the builder's. */
  function ContactBundle(p: Payload, ext: Collaborators): Option<Bundle>
  {
    var fromUri := if p.addressBookUri.Some? then ext.parseUri(p.addressBookUri.value) else None;
    if (fromUri.Some? && |fromUri.value| == 0) || fromUri.None? then p.bundle else fromUri
  }

  /** The fields of a contact bundle, as handed to the contact encoder. */
  function ContactFieldsOf(b: Bundle, ext: Collaborators): ContactFields
  {
    var url := GetString(b, ext.urlKey);
    ContactFields(
      [GetString(b, NAME_KEY)],
      GetString(b, COMPANY_KEY),
      [GetString(b, POSTAL_KEY)],
      AllBundleValues(b, ext.phoneKeys),
      AllBundleValues(b, ext.phoneTypeKeys),
      AllBundleValues(b, ext.emailKeys),
      if url.None? then None else Some([url.value]),
      GetString(b, ext.noteKey))
  }

  /** The pair the chosen contact encoder returns for a bundle. */
  function EncodeContact(p: Payload, b: Bundle, ext: Collaborators): (string, string)
  {
    var fields := ContactFieldsOf(b, ext);
    if p.useVCard then ext.vCard(fields) else ext.meCard(fields)
  }

  /** Both coordinates of a location bundle are present (neither is the sentinel). */
  predicate HasCoordinates(b: Bundle)
  {
    GetFloatBits(b, "LAT", FLOAT_MAX_VALUE_BITS) != FLOAT_MAX_VALUE_BITS
    && GetFloatBits(b, "LONG", FLOAT_MAX_VALUE_BITS) != FLOAT_MAX_VALUE_BITS
  }

  /** The address-book branch: `encoded[0]` when the contact encoder filled `encoded[1]`. */
  function AddressBookContents(p: Payload, current: Option<string>, ext: Collaborators): Option<string>
  {
    match ContactBundle(p, ext)
    case None => current
    case Some(b) =>
      var encoded := EncodeContact(p, b, ext);
      if encoded.1 != "" then Some(encoded.0) else current
  }

  /**
   * The encode contents after `encodeQRCodeContents`, given the builder's payload
   * and the encode contents it held before (`current`), which some branches keep.
   */
  function QRCodeContents(p: Payload, current: Option<string>, ext: Collaborators): Option<string>
  {
    match p.resultType
    case Wifi | Calendar | Isbn | Product | Vin | Uri | Text => p.contents
    case EmailAddress => Some("mailto:" + JavaText(p.contents))
    case Tel => Some("tel:" + JavaText(p.contents))
    case Sms => Some("sms:" + JavaText(p.contents))
    case AddressBook => AddressBookContents(p, current, ext)
    case Geo =>
      if p.bundle.Some? && HasCoordinates(p.bundle.value) then
        Some("geo:" + p.bundle.value["LAT"].text + "," + p.bundle.value["LONG"].text)
      else current
  }

  /** The result types whose raw contents are encoded as they are. */
  predicate PassesThrough(t: ParsedResultType)
  {
    t in {Wifi, Calendar, Isbn, Product, Vin, Uri, Text}
  }

  /** The URI scheme put in front of the raw contents, for the types that have one. */
  function Scheme(t: ParsedResultType): Option<string>
  {
    match t
    case EmailAddress => Some("mailto:")
    case Tel => Some("tel:")
    case Sms => Some("sms:")
    case _ => None
  }

  lemma PassThroughKeepsContents(p: Payload, current: Option<string>, ext: Collaborators)
    requires PassesThrough(p.resultType)
    ensures QRCodeContents(p, current, ext) == p.contents
  {
  }

  /** The schemed types give exactly the scheme followed by the raw contents. */
  lemma SchemeThenContents(p: Payload, current: Option<string>, ext: Collaborators)
    requires Scheme(p.resultType).Some?
    ensures var r, s := QRCodeContents(p, current, ext), Scheme(p.resultType).value;
      r.Some? && |s| <= |r.value| && r.value[..|s|] == s && r.value[|s|..] == JavaText(p.contents)
  {
  }

  /**
   * Stripping the scheme recovers the request: two schemed requests with non-null
   * contents that encode to the same text have the same type and contents.
   */
  lemma SchemedContentsInjective(p: Payload, q: Payload, ext: Collaborators)
    requires Scheme(p.resultType).Some? && Scheme(q.resultType).Some?
    requires p.contents.Some? && q.contents.Some?
    requires QRCodeContents(p, None, ext) == QRCodeContents(q, None, ext)
    ensures p.resultType == q.resultType && p.contents == q.contents
  {
    var r := QRCodeContents(p, None, ext).value;
    SchemeThenContents(p, None, ext);
    SchemeThenContents(q, None, ext);
    var sp, sq := Scheme(p.resultType).value, Scheme(q.resultType).value;
    assert r[0] == sp[0] && r[0] == sq[0];
    assert sp == sq;
  }

  /** Java prints a null contents as "null", so a null and a literal "null" collide. */
  lemma NullContentsPrintAsNull(p: Payload, current: Option<string>, ext: Collaborators)
    requires Scheme(p.resultType).Some? && p.contents.None?
    ensures QRCodeContents(p, current, ext)
         == QRCodeContents(p.(contents := Some("null")), current, ext)
  {
  }

  /** A location is written only when both coordinates are present; otherwise nothing changes. */
  lemma GeoNeedsBothCoordinates(p: Payload, current: Option<string>, ext: Collaborators)
    requires p.resultType == Geo
    ensures QRCodeContents(p, current, ext) != current ==>
      p.bundle.Some? && HasCoordinates(p.bundle.value)
    ensures p.bundle.Some? && HasCoordinates(p.bundle.value) ==>
      var b := p.bundle.value;
      "LAT" in b && "LONG" in b && b["LAT"].FloatValue? && b["LONG"].FloatValue?
      && QRCodeContents(p, current, ext) == Some("geo:" + b["LAT"].text + "," + b["LONG"].text)
  {
  }

  /** An address book is read from the parsed URI unless that gives nothing, then from the builder. */
  lemma AddressBookFallsBackToBuilderBundle(p: Payload, ext: Collaborators)
    ensures p.addressBookUri.None? ==> ContactBundle(p, ext) == p.bundle
    ensures p.addressBookUri.Some? ==>
      var parsed := ext.parseUri(p.addressBookUri.value);
      ContactBundle(p, ext) == if parsed.Some? && |parsed.value| > 0 then parsed else p.bundle
    ensures ContactBundle(p, ext).Some? && ContactBundle(p, ext) != p.bundle ==>
      |ContactBundle(p, ext).value| > 0
  {
  }

  /** An address book sets the contents to `encoded[0]` exactly when `encoded[1]` is not empty. */
  lemma AddressBookNeedsAnEncodedField(p: Payload, current: Option<string>, ext: Collaborators)
    requires p.resultType == AddressBook
    ensures ContactBundle(p, ext).None? ==> QRCodeContents(p, current, ext) == current
    ensures ContactBundle(p, ext).Some? ==>
      var encoded := EncodeContact(p, ContactBundle(p, ext).value, ext);
      QRCodeContents(p, current, ext) == if encoded.1 != "" then Some(encoded.0) else current
  {
  }

  // ---------------------------------------------------------------------------
  // Character set and pixels
  // ---------------------------------------------------------------------------

  /** Some character lies outside ISO-8859-1. */
  predicate NeedsUtf8(s: string)
  {
    exists i :: 0 <= i < |s| && s[i] as int > 0xFF
  }

  /** The hint `guessAppropriateEncoding` produces. */
  function CharacterSetHint(s: string): Option<string>
  {
    if NeedsUtf8(s) then Some("UTF-8") else None
  }

  /** The colour actually used: 0 means "unset" and becomes black. */
  function EffectiveColor(color: int32): (c: int32)
    ensures c != 0
    ensures color != 0 ==> c == color
  {
    if color == 0 then BLACK else color
  }

  /** The pixel for one bit. */
  function Pixel(bit: bool, color: int32): int32
  {
    if bit then color else WHITE
  }

  function RowPixels(row: seq<bool>, color: int32): (r: seq<int32>)
    ensures |r| == |row|
  {
    seq(|row|, x requires 0 <= x < |row| => Pixel(row[x], color))
  }

  /** The row-major pixel buffer of a matrix, row after row. */
  function Rasterize(rows: seq<seq<bool>>, color: int32): seq<int32>
  {
    if rows == [] then [] else Rasterize(rows[..|rows| - 1], color) + RowPixels(rows[|rows| - 1], color)
  }

  /** Row y of a `width`-wide buffer ends inside a buffer of `height` rows. */
  lemma {:induction false} RowOffset(y: nat, width: nat, height: nat)
    requires y < height
    ensures (y + 1) * width == y * width + width
    ensures y * width + width <= width * height
  {
    MulMonotone(y + 1, height, width);
  }

  lemma {:induction false} MulMonotone(a: nat, b: nat, c: nat)
    requires a <= b
    ensures a * c <= b * c
  {
    if c > 0 {
      MulMonotone(a, b, c - 1);
      assert a * c == a * (c - 1) + a;
      assert b * c == b * (c - 1) + b;
    }
  }

  lemma {:induction false} RasterizeLength(rows: seq<seq<bool>>, width: nat, color: int32)
    requires Rectangular(rows, width)
    ensures |Rasterize(rows, color)| == |rows| * width
  {
    if rows != [] {
      var n := |rows|;
      RasterizeLength(rows[..n - 1], width, color);
      RowOffset(n - 1, width, n);
    }
  }

  /** The pixel of bit (x, y) sits at index y*width + x of the buffer. */
  lemma {:induction false} RasterizeAt(rows: seq<seq<bool>>, width: nat, color: int32, y: nat, x: nat)
    requires Rectangular(rows, width)
    requires y < |rows| && x < width
    ensures y * width + x < |Rasterize(rows, color)|
    ensures Rasterize(rows, color)[y * width + x] == Pixel(rows[y][x], color)
  {
    var n := |rows|;
    var front, last := rows[..n - 1], rows[n - 1];
    var k := y * width + x;
    RasterizeLength(front, width, color);
    RowOffset(n - 1, width, n);
    var all := Rasterize(rows, color);
    assert all == Rasterize(front, color) + RowPixels(last, color);
    if y < n - 1 {
      RowOffset(y, width, n - 1);
      RasterizeAt(front, width, color, y, x);
      assert all[k] == Rasterize(front, color)[k];
    } else {
      assert k == (n - 1) * width + x;
      assert all[k] == RowPixels(last, color)[x];
    }
  }

  /** The buffer index `y*width + x` of bit (x, y); it lies inside a `width*height` buffer. */
  function CellIndex(width: nat, height: nat, y: nat, x: nat): (i: nat)
    requires y < height && x < width
    ensures i < width * height
  {
    RowOffset(y, width, height);
    y * width + x
  }

  /** Every bit has its pixel at its cell index. */
  lemma RasterizeCells(rows: seq<seq<bool>>, width: nat, color: int32)
    requires Rectangular(rows, width)
    ensures |Rasterize(rows, color)| == |rows| * width
    ensures forall y, x :: 0 <= y < |rows| && 0 <= x < width ==>
      Rasterize(rows, color)[CellIndex(width, |rows|, y, x)] == Pixel(rows[y][x], color)
  {
    RasterizeLength(rows, width, color);
    forall y, x | 0 <= y < |rows| && 0 <= x < width
      ensures Rasterize(rows, color)[CellIndex(width, |rows|, y, x)] == Pixel(rows[y][x], color)
    {
      RasterizeAt(rows, width, color, y, x);
    }
  }

  /** Rasterising one more row appends that row's pixels. */
  lemma RasterizeOneMoreRow(rows: seq<seq<bool>>, y: nat, color: int32)
    requires y < |rows|
    ensures Rasterize(rows[..y + 1], color) == Rasterize(rows[..y], color) + RowPixels(rows[y], color)
  {
    assert rows[..y + 1][..y] == rows[..y];
  }

  /** The indices lo, lo+1, ..., hi-1, in order. */
  function Indices(lo: int, hi: int): (r: seq<int>)
    requires lo <= hi
    ensures |r| == hi - lo && forall i :: 0 <= i < |r| ==> r[i] == lo + i
  {
    seq(hi - lo, i requires 0 <= i < hi - lo => lo + i)
  }

  lemma IndicesAppend(lo: int, mid: int, hi: int)
    requires lo <= mid <= hi
    ensures Indices(lo, mid) + Indices(mid, hi) == Indices(lo, hi)
  {
  }

  /** The inner loop of `encodeAsBitmap`: row y of the matrix, written from index y*width on. */
  method FillRow(pixels: array<int32>, m: BitMatrix, y: nat, color: int32) returns (ghost writes: seq<int>)
    requires y < m.height && pixels.Length == m.width * m.height
    requires pixels[..y * m.width] == Rasterize(m.rows[..y], color)
    modifies pixels
    ensures y * m.width <= (y + 1) * m.width <= pixels.Length
    ensures pixels[..(y + 1) * m.width] == Rasterize(m.rows[..y + 1], color)
    ensures pixels[(y + 1) * m.width..] == old(pixels[(y + 1) * m.width..])
    ensures writes == Indices(y * m.width, (y + 1) * m.width)
  {
    RowOffset(y, m.width, m.height);
    var width := m.width;
    var offset := y * width;
    writes := [];
    for x := 0 to width
      invariant pixels[..offset] == old(pixels[..offset])
      invariant pixels[offset + width..] == old(pixels[offset + width..])
      invariant pixels[offset..offset + x] == RowPixels(m.rows[y], color)[..x]
      invariant writes == Indices(offset, offset + x)
    {
      pixels[offset + x] := if m.rows[y][x] then color else WHITE;
      writes := writes + [offset + x];
    }
    RasterizeOneMoreRow(m.rows, y, color);
    assert pixels[..offset + width] == pixels[..offset] + pixels[offset..offset + width];
  }

  /**
   * The loops of `encodeAsBitmap`: fill a fresh `width*height` buffer, writing
   * each index `y*width + x` exactly once, in increasing order (`writes` logs the
   * indices written).
   */
  method RenderPixels(m: BitMatrix, color: int32) returns (pixels: array<int32>, ghost writes: seq<int>)
    requires m.width * m.height <= INT_MAX
    ensures fresh(pixels)
    ensures pixels.Length == m.width * m.height
    ensures pixels[..] == Rasterize(m.rows, color)
    ensures writes == Indices(0, pixels.Length)
  {
    var width, height := m.width, m.height;
    pixels := new int32[width * height];
    writes := [];
    for y := 0 to height
      invariant pixels[..y * width] == Rasterize(m.rows[..y], color)
      invariant writes == Indices(0, y * width)
    {
      ghost var rowWrites := FillRow(pixels, m, y, color);
      IndicesAppend(0, y * width, (y + 1) * width);
      writes := writes + rowWrites;
    }
    assert m.rows[..height] == m.rows;
    assert pixels[..] == pixels[..height * width];
  }

  /**
   * `guessAppropriateEncoding`: scans for a character above 0xFF and asks for
   * UTF-8 as soon as it finds one.
   */
  method GuessAppropriateEncoding(contents: string) returns (encoding: Option<string>)
    ensures encoding == Some("UTF-8") <==> exists i :: 0 <= i < |contents| && contents[i] as int > 0xFF
    ensures encoding.None? <==> forall i :: 0 <= i < |contents| ==> contents[i] as int <= 0xFF
    ensures encoding == CharacterSetHint(contents)
  {
    var i := 0;
    while i < |contents|
      invariant 0 <= i <= |contents|
      invariant forall j :: 0 <= j < i ==> contents[j] as int <= 0xFF
    {
      if contents[i] as int > 0xFF {
        return Some("UTF-8");
      }
      i := i + 1;
    }
    return None;
  }

  /** `getAllBundleValues`: appends one entry per key, null for a missing key or a null value. */
  method GetAllBundleValues(bundle: Bundle, keys: seq<string>) returns (values: seq<Option<string>>)
    ensures values == AllBundleValues(bundle, keys)
  {
    values := [];
    for i := 0 to |keys|
      invariant values == AllBundleValues(bundle, keys[..i])
    {
      var value := BundleText(bundle, keys[i]);
      values := values + [value];
    }
    assert keys[..|keys|] == keys;
  }

  // ---------------------------------------------------------------------------
  // The bitmap
  // ---------------------------------------------------------------------------

  datatype Failure = WriterFailed | PixelCountOverflow

  /**
   * What `encodeAsBitmap` ends with: null, a bitmap of the given size and pixels,
   * or an exception (the writer's `WriterException`, or the failure of
   * `new int[width * height]` when the product does not fit an `int`).
   */
  datatype BitmapResult =
    | NoBitmap
    | Bitmap(width: nat, height: nat, pixels: seq<int32>)
    | Thrown(failure: Failure)

  /** The outcome of `encodeAsBitmap` for given encode contents, format and colour. */
  function BitmapOf(contents: Option<string>, format: Option<BarcodeFormat>, color: int32,
                    dimension: int32, ext: Collaborators): BitmapResult
  {
    if contents.None? then NoBitmap
    else match ext.write(contents.value, format, dimension, CharacterSetHint(contents.value))
      case IllegalArgument => NoBitmap
      case WriterException => Thrown(WriterFailed)
      case Encoded(m) =>
        if m.width * m.height > INT_MAX then Thrown(PixelCountOverflow)
        else Bitmap(m.width, m.height, Rasterize(m.rows, EffectiveColor(color)))
  }

  /**
   * A bitmap always has width*height pixels, each the colour (never 0) for a set
   * bit of the writer's matrix and white for a clear one.
   */
  lemma BitmapPixelsFollowMatrix(contents: Option<string>, format: Option<BarcodeFormat>,
                                 color: int32, dimension: int32, ext: Collaborators)
    requires BitmapOf(contents, format, color, dimension, ext).Bitmap?
    ensures var b := BitmapOf(contents, format, color, dimension, ext);
      var m := ext.write(contents.value, format, dimension, CharacterSetHint(contents.value));
      && m.Encoded? && b.width == m.matrix.width && b.height == m.matrix.height
      && |b.pixels| == b.width * b.height
      && forall y, x :: 0 <= y < b.height && 0 <= x < b.width ==>
           b.pixels[CellIndex(b.width, b.height, y, x)]
           == (if m.matrix.rows[y][x] then EffectiveColor(color) else WHITE)
  {
    var b := BitmapOf(contents, format, color, dimension, ext);
    var m := ext.write(contents.value, format, dimension, CharacterSetHint(contents.value)).matrix;
    RasterizeCells(m.rows, m.width, EffectiveColor(color));
  }

  /** Null encode contents give a null bitmap whatever the writer would do. */
  lemma NullContentsGiveNoBitmap(format: Option<BarcodeFormat>, color: int32,
                                 dimension: int32, ext: Collaborators)
    ensures BitmapOf(None, format, color, dimension, ext) == NoBitmap
  {
  }

  // ---------------------------------------------------------------------------
  // The builder and the encoder
  // ---------------------------------------------------------------------------

  /** `QREncode.Builder`, reduced to what the encoder reads and writes. */
  class Builder {
    const payload: Payload
    var barcodeFormat: Option<BarcodeFormat>
    var encodeContents: Option<string>
    var color: int32

    constructor (payload: Payload, barcodeFormat: Option<BarcodeFormat>, color: int32)
      ensures this.payload == payload && this.barcodeFormat == barcodeFormat
      ensures this.color == color && encodeContents.None?
    {
      this.payload := payload;
      this.barcodeFormat := barcodeFormat;
      this.color := color;
      encodeContents := None;
    }
  }

  class QRCodeEncoder {
    const encodeBuild: Builder
    /** Stands for the Android context and the foreign classes the encoder uses. */
    const collaborators: Collaborators

    /**
     * A QR request (format null or QR_CODE) gets format QR_CODE and its encode
     * contents computed; any other format leaves the builder as it was.
     */
    constructor (build: Builder, collaborators: Collaborators)
      modifies build
      ensures encodeBuild == build && this.collaborators == collaborators
      ensures build.color == old(build.color)
      ensures old(build.barcodeFormat) in {None, Some(QrCode)} ==>
        build.barcodeFormat == Some(QrCode)
        && build.encodeContents == QRCodeContents(build.payload, old(build.encodeContents), collaborators)
      ensures old(build.barcodeFormat) !in {None, Some(QrCode)} ==>
        build.barcodeFormat == old(build.barcodeFormat) && build.encodeContents == old(build.encodeContents)
      ensures build.barcodeFormat.Some?
    {
      encodeBuild := build;
      this.collaborators := collaborators;
      new;
      EncodeContentsFromZXing(build);
    }

    method EncodeContentsFromZXing(build: Builder)
      modifies build, encodeBuild
      ensures build.color == old(build.color) && encodeBuild.color == old(encodeBuild.color)
      ensures old(build.barcodeFormat) in {None, Some(QrCode)} ==>
        build.barcodeFormat == Some(QrCode)
        && encodeBuild.encodeContents == QRCodeContents(build.payload, old(encodeBuild.encodeContents), collaborators)
      ensures old(build.barcodeFormat) in {None, Some(QrCode)} && build != encodeBuild ==>
        encodeBuild.barcodeFormat == old(encodeBuild.barcodeFormat) && build.encodeContents == old(build.encodeContents)
      ensures old(build.barcodeFormat) !in {None, Some(QrCode)} ==>
        unchanged(build) && unchanged(encodeBuild)
    {
      if build.barcodeFormat.None? || build.barcodeFormat == Some(QrCode) {
        build.barcodeFormat := Some(QrCode);
        EncodeQRCodeContents(build);
      }
    }

    method EncodeQRCodeContents(build: Builder)
      modifies encodeBuild
      ensures encodeBuild.encodeContents == QRCodeContents(build.payload, old(encodeBuild.encodeContents), collaborators)
      ensures encodeBuild.barcodeFormat == old(encodeBuild.barcodeFormat)
      ensures encodeBuild.color == old(encodeBuild.color)
    {
      var p := build.payload;
      match p.resultType {
        case Wifi | Calendar | Isbn | Product | Vin | Uri | Text =>
          encodeBuild.encodeContents := p.contents;
        case EmailAddress =>
          encodeBuild.encodeContents := Some("mailto:" + JavaText(p.contents));
        case Tel =>
          encodeBuild.encodeContents := Some("tel:" + JavaText(p.contents));
        case Sms =>
          encodeBuild.encodeContents := Some("sms:" + JavaText(p.contents));
        case AddressBook =>
          var contactBundle: Option<Bundle> := None;
          if p.addressBookUri.Some? {
            contactBundle := collaborators.parseUri(p.addressBookUri.value);
          }
          if (contactBundle.Some? && |contactBundle.value| == 0) || contactBundle.None? {
            contactBundle := p.bundle;
          }
          if contactBundle.Some? {
            var b := contactBundle.value;
            var name := GetString(b, NAME_KEY);
            var organization := GetString(b, COMPANY_KEY);
            var address := GetString(b, POSTAL_KEY);
            var phones := GetAllBundleValues(b, collaborators.phoneKeys);
            var phoneTypes := GetAllBundleValues(b, collaborators.phoneTypeKeys);
            var emails := GetAllBundleValues(b, collaborators.emailKeys);
            var url := GetString(b, collaborators.urlKey);
            var urls := if url.None? then None else Some([url.value]);
            var note := GetString(b, collaborators.noteKey);
            var fields := ContactFields([name], organization, [address], phones, phoneTypes, emails, urls, note);
            var encoded := if p.useVCard then collaborators.vCard(fields) else collaborators.meCard(fields);
            if encoded.1 != "" {
              encodeBuild.encodeContents := Some(encoded.0);
            }
          }
        case Geo =>
          var locationBundle := p.bundle;
          if locationBundle.Some? {
            var latitude := GetFloatBits(locationBundle.value, "LAT", FLOAT_MAX_VALUE_BITS);
            var longitude := GetFloatBits(locationBundle.value, "LONG", FLOAT_MAX_VALUE_BITS);
            if latitude != FLOAT_MAX_VALUE_BITS && longitude != FLOAT_MAX_VALUE_BITS {
              var b := locationBundle.value;
              encodeBuild.encodeContents := Some("geo:" + b["LAT"].text + "," + b["LONG"].text);
            }
          }
      }
    }

    /**
     * `encodeAsBitmap`: defaults the colour to black, then renders the encode
     * contents with the writer and rasterises its matrix.
     */
    method EncodeAsBitmap(dimension: int32) returns (r: BitmapResult)
      modifies encodeBuild
      ensures encodeBuild.color == EffectiveColor(old(encodeBuild.color))
      ensures encodeBuild.encodeContents == old(encodeBuild.encodeContents)
      ensures encodeBuild.barcodeFormat == old(encodeBuild.barcodeFormat)
      ensures r == BitmapOf(encodeBuild.encodeContents, encodeBuild.barcodeFormat,
                            old(encodeBuild.color), dimension, collaborators)
    {
      if encodeBuild.color == 0 {
        encodeBuild.color := BLACK;
      }
      var contentsToEncode := encodeBuild.encodeContents;
      if contentsToEncode.None? {
        return NoBitmap;
      }
      var encoding := GuessAppropriateEncoding(contentsToEncode.value);
      var result := collaborators.write(contentsToEncode.value, encodeBuild.barcodeFormat, dimension, encoding);
      match result {
        case IllegalArgument =>
          return NoBitmap;
        case WriterException =>
          return Thrown(WriterFailed);
        case Encoded(m) =>
          if m.width * m.height > INT_MAX {
            return Thrown(PixelCountOverflow);
          }
          var pixels, writes := RenderPixels(m, encodeBuild.color);
          return Bitmap(m.width, m.height, pixels[..]);
      }
    }
  }
}
