/** The binary sensor packet: a magic, a big-endian header length, a JSON header, one RGB
    payload and optional uint16 planes, each stored raw or as a bounded zlib stream. */
module SensorPacket {
  import opened Wrappers
  import opened Text

  type byte = x: int | 0 <= x < 256
  type uint16 = x: int | 0 <= x < 0x1_0000
  type Bytes = seq<byte>

  /** Rows of equal length, as a two-dimensional array. */
  datatype Matrix = Matrix(height: nat, width: nat, cells: seq<uint16>)

  function Area(width: nat, height: nat): nat {
    width * height
  }

  predicate Shaped(m: Matrix) {
    |m.cells| == Area(m.width, m.height)
  }

  const MAGIC_V1: Bytes := [0x56, 0x52, 0x53, 0x50, 0x31, 0x00]
  const MAGIC_V2: Bytes := [0x56, 0x52, 0x53, 0x50, 0x32, 0x00]
  const MAX_PLANE_RAW_BYTES := 32 * 1024 * 1024
  const MAX_HEADER_BYTES := 64 * 1024
  const MAX_SIDE := 8192

  datatype Compression = NoCompression | Zlib

  datatype Plane = Plane(width: nat, height: nat, byteLength: nat, rawByteLength: Option<nat>,
                         compression: Compression, alignment: Option<string>)

  datatype Version = V1 | V2

  datatype Header = Header(schema: Version, rgbContentType: string, rgbByteLength: nat,
                           depth: Option<Plane>, infrared: Option<Plane>)

  datatype PacketError =
    | Truncated | BadMagic | BadHeaderLength | BadHeader | VersionMismatch | CompressedV1
    | MediaTypeUnsupported | RgbEmpty | RgbTruncated | DepthUnaligned | PlaneTruncated
    | PlaneTooLarge | RawLengthWrong | LengthWrong | ZlibInvalid | ZlibTooLong | ZlibTooShort | ZlibTrailing
    | TrailingBytes | HeaderTooLarge | ShapeRejected | ModeRejected

  // ---------------------------------------------------------------- foreign codecs

  /** One bounded pass of a zlib decompressor: at most `limit` bytes out, the input left
      over because of the limit, what a flush adds, and how the stream stands at its end. */
  datatype Inflated = ZlibError | Inflated(raw: Bytes, tail: Bytes, flushed: Bytes, eof: bool, unused: Bytes)

  /** zlib and the JSON form of the header, as functions. */
  datatype Codecs = Codecs(
    compress: Bytes -> Bytes,
    inflate: (Bytes, nat) -> Inflated,
    dump: Header -> Bytes,
    parse: Bytes -> Option<Header>)

  /** What a stored header satisfies field by field, as its schema demands. */
  predicate HeaderFieldsValid(h: Header) {
    h.rgbByteLength >= 1 && PlaneFieldsValid(h.depth) && PlaneFieldsValid(h.infrared)
  }

  predicate PlaneFieldsValid(p: Option<Plane>) {
    p.Some? ==>
      && 1 <= p.value.width <= MAX_SIDE && 1 <= p.value.height <= MAX_SIDE
      && 1 <= p.value.byteLength
      && (p.value.rawByteLength.Some? ==> 2 <= p.value.rawByteLength.value)
  }

  /** RFC 1950 and RFC 8259 as far as the packet needs them: a whole compressed stream
      comes back in one pass that has room for it, never as an empty stream, a pass does
      not exceed its limit, and a valid header reads back from its own text. */
  ghost predicate Lawful(c: Codecs) {
    && (forall x: Bytes, n: nat :: |x| < n ==> c.inflate(c.compress(x), n) == Inflated(x, [], [], true, []))
    && (forall x: Bytes :: |c.compress(x)| >= 1)
    && (forall h: Header :: HeaderFieldsValid(h) ==> c.parse(c.dump(h)) == Some(h))
    && (forall h: Header :: |c.dump(h)| >= 2)
    && (forall b: Bytes :: c.parse(b).Some? ==> HeaderFieldsValid(c.parse(b).value))
  }

  // ---------------------------------------------------------------- numbers and rows as bytes

  function BigEndian(n: nat): (b: Bytes)
    requires n < 0x1_0000_0000
    ensures |b| == 4
  {
    [n / 0x100_0000, n / 0x1_0000 % 256, n / 256 % 256, n % 256]
  }

  function ReadBigEndian(b: Bytes): nat
    requires |b| == 4
  {
    (b[0] as int) * 0x100_0000 + (b[1] as int) * 0x1_0000 + (b[2] as int) * 256 + b[3] as int
  }

  lemma BigEndianRoundTrip(n: nat)
    requires n < 0x1_0000_0000
    ensures ReadBigEndian(BigEndian(n)) == n
  {
    var a, b, c := n / 256, n / 0x1_0000, n / 0x100_0000;
    assert b == a / 256 && c == b / 256;
    assert n == a * 256 + n % 256 && a == b * 256 + a % 256 && b == c * 256 + b % 256;
    assert a % 256 == n / 256 % 256;
  }

  /** Cells in row-major order, low byte first. */
  function CellBytes(cells: seq<uint16>): (b: Bytes)
    ensures |b| == 2 * |cells|
  {
    if cells == [] then [] else CellBytes(cells[..|cells| - 1]) + [cells[|cells| - 1] % 256, cells[|cells| - 1] / 256]
  }

  function BytesToCells(b: Bytes): (cells: seq<uint16>)
    requires |b| % 2 == 0
    ensures |cells| == |b| / 2
  {
    if b == [] then [] else BytesToCells(b[..|b| - 2]) + [b[|b| - 2] as int + 256 * (b[|b| - 1] as int)]
  }

  lemma CellBytesStep(cells: seq<uint16>)
    requires cells != []
    ensures var before, last := cells[..|cells| - 1], cells[|cells| - 1];
            CellBytes(cells) == CellBytes(before) + [last % 256, last / 256]
  {}

  lemma BytesToCellsStep(b: Bytes)
    requires |b| % 2 == 0 && b != []
    ensures BytesToCells(b) == BytesToCells(b[..|b| - 2]) + [b[|b| - 2] as int + 256 * (b[|b| - 1] as int)]
  {}

  lemma {:induction false} CellsRoundTrip(cells: seq<uint16>)
    ensures BytesToCells(CellBytes(cells)) == cells
  {
    hide CellBytes, BytesToCells;
    if cells != [] {
      var before, last := cells[..|cells| - 1], cells[|cells| - 1];
      CellsRoundTrip(before);
      var b := CellBytes(cells);
      CellBytesStep(cells);
      BytesToCellsStep(b);
      assert b[..|b| - 2] == CellBytes(before) && b[|b| - 2] == last % 256 && b[|b| - 1] == last / 256;
      assert cells == before + [last];
    } else {
      NoCells();
    }
  }

  lemma NoCells()
    ensures BytesToCells(CellBytes([])) == []
  {}

  /** Cell (row, column) sits at byte 2 * (row * width + column), least significant first. */
  lemma {:induction false} CellAt(cells: seq<uint16>, k: nat)
    requires k < |cells|
    ensures CellBytes(cells)[2 * k] == cells[k] % 256 && CellBytes(cells)[2 * k + 1] == cells[k] / 256
  {
    if k < |cells| - 1 {
      CellAt(cells[..|cells| - 1], k);
    }
  }

  lemma IndexInside(row: nat, column: nat, width: nat, height: nat)
    requires row < height && column < width
    ensures 0 <= row * width + column < Area(width, height)
  {
    var above := height - 1 - row;
    assert above * width >= 0;
    assert width * height == row * width + width + above * width;
  }

  lemma PlaneLayout(m: Matrix, row: nat, column: nat)
    requires Shaped(m) && row < m.height && column < m.width
    ensures var k := row * m.width + column;
            && 0 <= k < |m.cells|
            && CellBytes(m.cells)[2 * k] as int + 256 * (CellBytes(m.cells)[2 * k + 1] as int) == m.cells[k]
  {
    var k := row * m.width + column;
    IndexInside(row, column, m.width, m.height);
    CellAt(m.cells, k);
  }

  // ---------------------------------------------------------------- media types

  function BeforeSemicolon(s: string): string {
    if s == "" || s[0] == ';' then "" else [s[0]] + BeforeSemicolon(s[1..])
  }

  function LowerChar(c: char): char {
    if 'A' <= c <= 'Z' then c - 'A' + 'a' else c
  }

  function Lower(s: string): string {
    seq(|s|, i requires 0 <= i < |s| => LowerChar(s[i]))
  }

  /** Parameters cut off, white space trimmed, ASCII letters lowered. */
  function NormalType(s: string): string {
    Lower(Strip(BeforeSemicolon(s)))
  }

  predicate Supported(t: string) {
    t == "image/jpeg" || t == "image/png" || t == "image/webp"
  }

  lemma {:induction false} PlainBeforeSemicolon(s: string)
    requires ';' !in s
    ensures BeforeSemicolon(s) == s
  {
    if s != "" {
      assert s[0] in s;
      PlainBeforeSemicolon(s[1..]);
    }
  }

  /** The supported names are already normal, so the decoder's normalisation keeps them. */
  lemma SupportedIsNormal(t: string)
    requires Supported(t)
    ensures NormalType(t) == t
  {
    PlainBeforeSemicolon(t);
    assert !IsSpace(t[0]) && !IsSpace(t[|t| - 1]);
    assert forall i :: 0 <= i < |t| ==> LowerChar(t[i]) == t[i];
  }

  // ---------------------------------------------------------------- decoding

  function RawBytes(p: Plane): nat {
    2 * Area(p.width, p.height)
  }

  function PlaneFault(p: Plane): Option<PacketError> {
    if RawBytes(p) > MAX_PLANE_RAW_BYTES then Some(PlaneTooLarge)
    else if p.rawByteLength.Some? && p.rawByteLength.value != RawBytes(p) then Some(RawLengthWrong)
    else if p.compression.NoCompression? && p.byteLength != RawBytes(p) then Some(LengthWrong)
    else None
  }

  function DecodePlane(c: Codecs, p: Plane, payload: Bytes): Result<Bytes, PacketError> {
    var expected := RawBytes(p);
    if PlaneFault(p).Some? then Err(PlaneFault(p).value)
    else if |payload| != p.byteLength then Err(LengthWrong)
    else if p.compression.NoCompression? then Ok(payload)
    else match c.inflate(payload, expected + 1)
    case ZlibError => Err(ZlibInvalid)
    case Inflated(raw, tail, flushed, eof, unused) =>
      if |raw| > expected || tail != [] then Err(ZlibTooLong)
      else if |raw| + |flushed| > expected then Err(ZlibTooLong)
      else if |raw| + |flushed| != expected then Err(ZlibTooShort)
      else if !eof || unused != [] then Err(ZlibTrailing)
      else Ok(raw + flushed)
  }

  predicate PlainPlane(p: Option<Plane>) {
    p.Some? ==> p.value.compression.NoCompression? && p.value.rawByteLength.None?
  }

  function HeaderLength(b: Bytes): nat
    requires |b| >= 10
  {
    ReadBigEndian(b[6..10])
  }

  function Inspect(c: Codecs, b: Bytes): Result<Header, PacketError> {
    if |b| < 10 then Err(Truncated)
    else if b[..6] != MAGIC_V1 && b[..6] != MAGIC_V2 then Err(BadMagic)
    else if HeaderLength(b) < 2 || HeaderLength(b) > MAX_HEADER_BYTES then Err(BadHeaderLength)
    else if 10 + HeaderLength(b) > |b| then Err(Truncated)
    else match c.parse(b[10..10 + HeaderLength(b)])
    case None => Err(BadHeader)
    case Some(h) =>
      if h.schema != (if b[..6] == MAGIC_V1 then V1 else V2) then Err(VersionMismatch)
      else if h.schema.V1? && !(PlainPlane(h.depth) && PlainPlane(h.infrared)) then Err(CompressedV1)
      else Ok(h)
  }

  datatype Decoded = Decoded(rgbContentType: string, rgbPayload: Bytes, depth: Option<Matrix>, infrared: Option<Matrix>)

  /** The plane at an offset, and the offset after it. */
  function PlaneAt(c: Codecs, b: Bytes, offset: nat, p: Option<Plane>): Result<(Option<Bytes>, nat), PacketError>
    requires offset <= |b|
  {
    if p.None? then Ok((None, offset))
    else if offset + p.value.byteLength > |b| then Err(PlaneTruncated)
    else match DecodePlane(c, p.value, b[offset..offset + p.value.byteLength])
    case Err(e) => Err(e)
    case Ok(raw) => Ok((Some(raw), offset + p.value.byteLength))
  }

  function ToMatrix(p: Option<Plane>, raw: Option<Bytes>): Option<Matrix> {
    if p.None? || raw.None? || |raw.value| % 2 != 0 then None
    else Some(Matrix(p.value.height, p.value.width, BytesToCells(raw.value)))
  }

  /** Everything after the header, which ends at `start`. */
  function DecodeBody(c: Codecs, h: Header, b: Bytes, start: nat): Result<Decoded, PacketError> {
    var rgbType := NormalType(h.rgbContentType);
    if !Supported(rgbType) then Err(MediaTypeUnsupported)
    else if start + h.rgbByteLength > |b| then Err(RgbTruncated)
    else if h.depth.Some? && h.depth.value.alignment != Some("color") then Err(DepthUnaligned)
    else match PlaneAt(c, b, start + h.rgbByteLength, h.depth)
    case Err(e) => Err(e)
    case Ok((depth, afterDepth)) =>
      if afterDepth > |b| then Err(PlaneTruncated)
      else match PlaneAt(c, b, afterDepth, h.infrared)
      case Err(e) => Err(e)
      case Ok((infrared, end)) =>
        if end != |b| then Err(TrailingBytes)
        else Ok(Decoded(rgbType, b[start..start + h.rgbByteLength], ToMatrix(h.depth, depth),
            ToMatrix(h.infrared, infrared)))
  }

  function Decode(c: Codecs, b: Bytes): Result<Decoded, PacketError> {
    match Inspect(c, b)
    case Err(e) => Err(e)
    case Ok(h) => DecodeBody(c, h, b, 10 + HeaderLength(b))
  }

  method TakePlane(c: Codecs, b: Bytes, offset: nat, p: Option<Plane>)
    returns (r: Result<(Option<Bytes>, nat), PacketError>)
    requires offset <= |b|
    ensures r == PlaneAt(c, b, offset, p)
    ensures r.Ok? ==> offset <= r.value.1 <= |b|
  {
    if p.None? {
      return Ok((None, offset));
    }
    var end := offset + p.value.byteLength;
    if end > |b| {
      return Err(PlaneTruncated);
    }
    var decoded := DecodePlane(c, p.value, b[offset..end]);
    if decoded.Err? {
      return Err(decoded.error);
    }
    r := Ok((Some(decoded.value), end));
  }

  /** The decoder as the source runs it, with one offset moving through the payload. */
  method DecodeSensorPacket(c: Codecs, b: Bytes) returns (r: Result<Decoded, PacketError>)
    ensures r == Decode(c, b)
  {
    hide NormalType, Supported, PlaneAt, ToMatrix, ReadBigEndian;
    var inspected := Inspect(c, b);
    if inspected.Err? {
      return Err(inspected.error);
    }
    var h := inspected.value;
    var offset := 10;
    offset := offset + HeaderLength(b);
    var rgbType := NormalType(h.rgbContentType);
    if !Supported(rgbType) {
      return Err(MediaTypeUnsupported);
    }
    var endRgb := offset + h.rgbByteLength;
    if endRgb > |b| {
      return Err(RgbTruncated);
    }
    var rgbPayload := b[offset..endRgb];
    offset := endRgb;

    if h.depth.Some? && h.depth.value.alignment != Some("color") {
      return Err(DepthUnaligned);
    }
    var depth := TakePlane(c, b, offset, h.depth);
    if depth.Err? {
      return Err(depth.error);
    }
    offset := depth.value.1;

    var infrared := TakePlane(c, b, offset, h.infrared);
    if infrared.Err? {
      return Err(infrared.error);
    }
    offset := infrared.value.1;
    if offset != |b| {
      return Err(TrailingBytes);
    }
    r := Ok(Decoded(rgbType, rgbPayload, ToMatrix(h.depth, depth.value.0), ToMatrix(h.infrared, infrared.value.0)));
  }

  // ---------------------------------------------------------------- encoding

  datatype Mode = Never | Always | Auto

  datatype VersionChoice = ChooseAuto | ChooseV1 | ChooseV2

  /** The header entry of a plane and its bytes on the wire. */
  function EncodePlane(c: Codecs, m: Matrix, mode: Mode, alignment: Option<string>)
    : Result<(Plane, Bytes), PacketError>
  {
    var raw := CellBytes(m.cells);
    if |raw| > MAX_PLANE_RAW_BYTES then Err(PlaneTooLarge)
    else
      var packed := c.compress(raw);
      var zlib := mode.Always? || (mode.Auto? && |packed| < |raw|);
      var wire := if zlib then packed else raw;
      var p := Plane(m.width, m.height, |wire|, if zlib then Some(|raw|) else None,
                     if zlib then Zlib else NoCompression, alignment);
      if PlaneFieldsValid(Some(p)) then Ok((p, wire)) else Err(ShapeRejected)
  }

  function EncodeOptional(c: Codecs, m: Option<Matrix>, mode: Mode, alignment: Option<string>)
    : Result<(Option<Plane>, Bytes), PacketError>
  {
    if m.None? then Ok((None, []))
    else match EncodePlane(c, m.value, mode, alignment)
    case Err(e) => Err(e)
    case Ok((p, wire)) => Ok((Some(p), wire))
  }

  function ChosenVersion(choice: VersionChoice, mode: Mode): Version {
    match choice
    case ChooseV1 => V1
    case ChooseV2 => V2
    case ChooseAuto => if mode.Never? then V1 else V2
  }

  function Assemble(c: Codecs, h: Header, rgb: Bytes, planes: Bytes): Result<Bytes, PacketError> {
    var text := c.dump(h);
    if |text| > MAX_HEADER_BYTES then Err(HeaderTooLarge)
    else Ok((if h.schema.V2? then MAGIC_V2 else MAGIC_V1) + BigEndian(|text|) + text + rgb + planes)
  }

  function Encode(c: Codecs, rgb: Bytes, rgbContentType: string, depth: Option<Matrix>, infrared: Option<Matrix>,
                  mode: Mode, choice: VersionChoice): Result<Bytes, PacketError>
  {
    if rgb == [] then Err(RgbEmpty)
    else if !Supported(NormalType(rgbContentType)) then Err(MediaTypeUnsupported)
    else if choice.ChooseV1? && !mode.Never? then Err(ModeRejected)
    else match EncodeOptional(c, depth, mode, Some("color"))
    case Err(e) => Err(e)
    case Ok((depthPlane, depthWire)) =>
      match EncodeOptional(c, infrared, mode, None)
      case Err(e) => Err(e)
      case Ok((infraredPlane, infraredWire)) =>
        Assemble(c, Header(ChosenVersion(choice, mode), NormalType(rgbContentType), |rgb|, depthPlane, infraredPlane),
                 rgb, depthWire + infraredWire)
  }

  // ---------------------------------------------------------------- round trip

  lemma PlaneRoundTrip(c: Codecs, m: Matrix, mode: Mode, alignment: Option<string>)
    requires Lawful(c) && Shaped(m) && EncodePlane(c, m, mode, alignment).Ok?
    ensures var (p, wire) := EncodePlane(c, m, mode, alignment).value;
            && DecodePlane(c, p, wire) == Ok(CellBytes(m.cells))
            && |wire| == p.byteLength
            && ToMatrix(Some(p), Some(CellBytes(m.cells))) == Some(m)
            && (mode.Never? ==> PlainPlane(Some(p)))
  {
    hide Lawful, CellBytes, BytesToCells, Area, DecodePlane;
    var (p, wire) := EncodePlane(c, m, mode, alignment).value;
    var raw := CellBytes(m.cells);
    AreaBytes(m, p);
    CellsRoundTrip(m.cells);
    if p.compression.Zlib? {
      InflateWhole(c, p, raw);
    } else {
      PlainDecodes(c, p, raw);
    }
  }

  lemma AreaBytes(m: Matrix, p: Plane)
    requires Shaped(m) && p.width == m.width && p.height == m.height
    ensures RawBytes(p) == |CellBytes(m.cells)|
  {}

  lemma PlainDecodes(c: Codecs, p: Plane, raw: Bytes)
    requires p.compression.NoCompression? && p.rawByteLength.None? && p.byteLength == |raw| == RawBytes(p)
    requires |raw| <= MAX_PLANE_RAW_BYTES
    ensures DecodePlane(c, p, raw) == Ok(raw)
  {
    hide RawBytes;
  }

  lemma InflateWhole(c: Codecs, p: Plane, raw: Bytes)
    requires Lawful(c) && p.compression.Zlib? && p.rawByteLength == Some(|raw|) && RawBytes(p) == |raw|
    requires |raw| <= MAX_PLANE_RAW_BYTES && p.byteLength == |c.compress(raw)|
    ensures DecodePlane(c, p, c.compress(raw)) == Ok(raw)
  {
    hide RawBytes;
    assert c.inflate(c.compress(raw), |raw| + 1) == Inflated(raw, [], [], true, []);
    assert raw + [] == raw;
  }

  /** At the offset the packet holds the optional plane, over `length` bytes. */
  predicate Holds(c: Codecs, b: Bytes, offset: nat, p: Option<Plane>, length: nat, m: Option<Matrix>) {
    && offset <= |b|
    && PlaneAt(c, b, offset, p).Ok?
    && PlaneAt(c, b, offset, p).value.1 == offset + length
    && ToMatrix(p, PlaneAt(c, b, offset, p).value.0) == m
  }

  /** Reading an optional plane back from a packet that holds it at the offset. */
  lemma PlaneAtRoundTrip(c: Codecs, b: Bytes, offset: nat, m: Option<Matrix>, mode: Mode, alignment: Option<string>,
                         p: Option<Plane>, wire: Bytes)
    requires Lawful(c) && (m.Some? ==> Shaped(m.value))
    requires EncodeOptional(c, m, mode, alignment) == Ok((p, wire))
    requires offset + |wire| <= |b| && b[offset..offset + |wire|] == wire
    ensures Holds(c, b, offset, p, |wire|, m)
  {
    hide DecodePlane, CellBytes, BytesToCells, Lawful, Shaped, EncodePlane;
    if m.Some? {
      PlaneRoundTrip(c, m.value, mode, alignment);
    }
  }

  lemma EncodedPlaneFields(c: Codecs, m: Option<Matrix>, mode: Mode, alignment: Option<string>, p: Option<Plane>,
                           wire: Bytes)
    requires EncodeOptional(c, m, mode, alignment) == Ok((p, wire))
    ensures PlaneFieldsValid(p)
    ensures mode.Never? ==> PlainPlane(p)
    ensures p.Some? ==> p.value.alignment == alignment
  {}

  lemma InspectAssembled(c: Codecs, h: Header, rgb: Bytes, planes: Bytes)
    requires Lawful(c) && HeaderFieldsValid(h) && Assemble(c, h, rgb, planes).Ok?
    requires h.schema.V1? ==> PlainPlane(h.depth) && PlainPlane(h.infrared)
    ensures var b := Assemble(c, h, rgb, planes).value;
            && Inspect(c, b) == Ok(h)
            && HeaderLength(b) == |c.dump(h)|
            && |b| == 10 + |c.dump(h)| + |rgb| + |planes|
            && b[10 + |c.dump(h)|..] == rgb + planes
  {
    hide BigEndian, ReadBigEndian, PlainPlane, HeaderFieldsValid;
    var b := Assemble(c, h, rgb, planes).value;
    var text := c.dump(h);
    var magic := if h.schema.V2? then MAGIC_V2 else MAGIC_V1;
    BigEndianRoundTrip(|text|);
    Layers(magic, BigEndian(|text|), text, rgb, planes);
    DumpReadsBack(c, h);
    MagicsDiffer();
  }

  lemma MagicsDiffer()
    ensures MAGIC_V1 != MAGIC_V2 && |MAGIC_V1| == |MAGIC_V2| == 6
  {
    assert MAGIC_V1[4] != MAGIC_V2[4];
  }

  lemma DumpReadsBack(c: Codecs, h: Header)
    requires Lawful(c) && HeaderFieldsValid(h)
    ensures c.parse(c.dump(h)) == Some(h) && |c.dump(h)| >= 2
  {}

  lemma Layers(magic: Bytes, length: Bytes, text: Bytes, rgb: Bytes, planes: Bytes)
    requires |magic| == 6 && |length| == 4
    ensures var b := magic + length + text + rgb + planes;
            && |b| == 10 + |text| + |rgb| + |planes|
            && b[..6] == magic && b[6..10] == length && b[10..10 + |text|] == text
            && b[10 + |text|..] == rgb + planes
  {}

  lemma Slice(b: Bytes, start: nat, x: Bytes, rest: Bytes)
    requires start <= |b| && b[start..] == x + rest
    ensures start + |x| + |rest| == |b|
    ensures b[start..start + |x|] == x && b[start + |x|..] == rest
  {
    assert b[start..start + |x|] == b[start..][..|x|];
    assert b[start + |x|..] == b[start..][|x|..];
  }

  lemma BodyDecodes(c: Codecs, b: Bytes, start: nat, h: Header, rgb: Bytes, depthLength: nat, infraredLength: nat,
                    depth: Option<Matrix>, infrared: Option<Matrix>)
    requires |b| == start + |rgb| + depthLength + infraredLength && b[start..start + |rgb|] == rgb
    requires HeaderReady(h, rgb)
    requires Holds(c, b, start + |rgb|, h.depth, depthLength, depth)
    requires Holds(c, b, start + |rgb| + depthLength, h.infrared, infraredLength, infrared)
    ensures DecodeBody(c, h, b, start) == Ok(Decoded(h.rgbContentType, rgb, depth, infrared))
  {
    hide NormalType, Supported, DecodePlane, ToMatrix, HeaderFieldsValid, PlainPlane;
    SupportedIsNormal(h.rgbContentType);
  }

  /** The plane that begins the rest of a packet. */
  lemma PlaneInTail(c: Codecs, b: Bytes, start: nat, m: Option<Matrix>, mode: Mode, alignment: Option<string>,
                    p: Option<Plane>, wire: Bytes, rest: Bytes)
    requires Lawful(c) && (m.Some? ==> Shaped(m.value))
    requires EncodeOptional(c, m, mode, alignment) == Ok((p, wire))
    requires start <= |b| && b[start..] == wire + rest
    ensures start + |wire| + |rest| == |b| && b[start + |wire|..] == rest
    ensures Holds(c, b, start, p, |wire|, m)
  {
    Slice(b, start, wire, rest);
    PlaneAtRoundTrip(c, b, start, m, mode, alignment, p, wire);
  }

  /** The header the encoder fills in. */
  predicate HeaderReady(h: Header, rgb: Bytes) {
    && Supported(h.rgbContentType)
    && h.rgbByteLength == |rgb| && HeaderFieldsValid(h)
    && (h.schema.V1? ==> PlainPlane(h.depth) && PlainPlane(h.infrared))
    && (h.depth.Some? ==> h.depth.value.alignment == Some("color"))
  }

  /** What an encoding that goes through consists of. */
  lemma EncodeParts(c: Codecs, rgb: Bytes, rgbContentType: string, depth: Option<Matrix>, infrared: Option<Matrix>,
                    mode: Mode, choice: VersionChoice) returns (h: Header, dw: Bytes, iw: Bytes)
    requires Encode(c, rgb, rgbContentType, depth, infrared, mode, choice).Ok?
    ensures EncodeOptional(c, depth, mode, Some("color")) == Ok((h.depth, dw))
    ensures EncodeOptional(c, infrared, mode, None) == Ok((h.infrared, iw))
    ensures Encode(c, rgb, rgbContentType, depth, infrared, mode, choice) == Assemble(c, h, rgb, dw + iw)
    ensures h.rgbContentType == NormalType(rgbContentType) && HeaderReady(h, rgb)
  {
    var (dp, dw') := EncodeOptional(c, depth, mode, Some("color")).value;
    var (ip, iw') := EncodeOptional(c, infrared, mode, None).value;
    EncodedPlaneFields(c, depth, mode, Some("color"), dp, dw');
    EncodedPlaneFields(c, infrared, mode, None, ip, iw');
    h := Header(ChosenVersion(choice, mode), NormalType(rgbContentType), |rgb|, dp, ip);
    dw, iw := dw', iw';
  }

  lemma PlanesHold(c: Codecs, b: Bytes, start: nat, depth: Option<Matrix>, infrared: Option<Matrix>, mode: Mode,
                   dp: Option<Plane>, dw: Bytes, ip: Option<Plane>, iw: Bytes)
    requires Lawful(c)
    requires depth.Some? ==> Shaped(depth.value)
    requires infrared.Some? ==> Shaped(infrared.value)
    requires EncodeOptional(c, depth, mode, Some("color")) == Ok((dp, dw))
    requires EncodeOptional(c, infrared, mode, None) == Ok((ip, iw))
    requires start <= |b| && b[start..] == dw + iw
    ensures Holds(c, b, start, dp, |dw|, depth)
    ensures Holds(c, b, start + |dw|, ip, |iw|, infrared)
  {
    hide Lawful, EncodeOptional, Holds, Shaped;
    PlaneInTail(c, b, start, depth, mode, Some("color"), dp, dw, iw);
    assert iw + [] == iw;
    PlaneInTail(c, b, start + |dw|, infrared, mode, None, ip, iw, []);
  }

  /** The packet made of a header, RGB bytes and two planes decodes to them. */
  lemma AssembledRoundTrip(c: Codecs, h: Header, rgb: Bytes, depth: Option<Matrix>, infrared: Option<Matrix>,
                           mode: Mode, dw: Bytes, iw: Bytes, b: Bytes)
    requires Lawful(c) && Assemble(c, h, rgb, dw + iw) == Ok(b) && HeaderReady(h, rgb)
    requires depth.Some? ==> Shaped(depth.value)
    requires infrared.Some? ==> Shaped(infrared.value)
    requires EncodeOptional(c, depth, mode, Some("color")) == Ok((h.depth, dw))
    requires EncodeOptional(c, infrared, mode, None) == Ok((h.infrared, iw))
    ensures Inspect(c, b) == Ok(h)
    ensures var start := 10 + HeaderLength(b);
            && |b| == start + |rgb| + |dw| + |iw| && b[start..start + |rgb|] == rgb
            && Holds(c, b, start + |rgb|, h.depth, |dw|, depth)
            && Holds(c, b, start + |rgb| + |dw|, h.infrared, |iw|, infrared)
  {
    hide Assemble, EncodeOptional, Lawful, Holds, Inspect, Shaped, HeaderFieldsValid, PlainPlane;
    assert HeaderFieldsValid(h) && (h.schema.V1? ==> PlainPlane(h.depth) && PlainPlane(h.infrared));
    InspectAssembled(c, h, rgb, dw + iw);
    var start := 10 + HeaderLength(b);
    Slice(b, start, rgb, dw + iw);
    PlanesHold(c, b, start + |rgb|, depth, infrared, mode, h.depth, dw, h.infrared, iw);
  }

  /** Every packet the encoder makes, in every compression mode and permitted version,
      decodes to the same RGB bytes, the normalised media type and the same matrices. */
  lemma PacketRoundTrip(c: Codecs, rgb: Bytes, rgbContentType: string, depth: Option<Matrix>, infrared: Option<Matrix>,
                        mode: Mode, choice: VersionChoice, b: Bytes)
    requires Lawful(c)
    requires depth.Some? ==> Shaped(depth.value)
    requires infrared.Some? ==> Shaped(infrared.value)
    requires Encode(c, rgb, rgbContentType, depth, infrared, mode, choice) == Ok(b)
    ensures Decode(c, b) == Ok(Decoded(NormalType(rgbContentType), rgb, depth, infrared))
  {
    hide Encode, EncodeOptional, Assemble, Lawful, Holds, HeaderReady, Inspect, DecodeBody, NormalType, Shaped;
    var h, dw, iw := EncodeParts(c, rgb, rgbContentType, depth, infrared, mode, choice);
    AssembledRoundTrip(c, h, rgb, depth, infrared, mode, dw, iw, b);
    BodyDecodes(c, b, 10 + HeaderLength(b), h, rgb, |dw|, |iw|, depth, infrared);
  }

  // ---------------------------------------------------------------- what an accepted packet is made of

  function WireBytes(p: Option<Plane>): nat {
    if p.Some? then p.value.byteLength else 0
  }

  function RawBytesOf(p: Option<Plane>): nat {
    if p.Some? then RawBytes(p.value) else 0
  }

  predicate MatrixFits(m: Option<Matrix>, p: Option<Plane>) {
    && (m.Some? <==> p.Some?)
    && (m.Some? ==>
          && m.value.height == p.value.height && m.value.width == p.value.width
          && Shaped(m.value)
          && 2 * |m.value.cells| == RawBytes(p.value) <= MAX_PLANE_RAW_BYTES)
  }

  lemma DecodedPlaneFits(c: Codecs, b: Bytes, offset: nat, p: Option<Plane>)
    requires offset <= |b| && PlaneAt(c, b, offset, p).Ok?
    ensures MatrixFits(ToMatrix(p, PlaneAt(c, b, offset, p).value.0), p)
    ensures PlaneAt(c, b, offset, p).value.1 == offset + WireBytes(p) <= |b|
    ensures p.Some? ==> PlaneFault(p.value).None?
  {
    if p.Some? {
      var raw := PlaneAt(c, b, offset, p).value.0.value;
      assert |raw| == RawBytes(p.value);
    }
  }

  /** Any accepted packet is the prefix of ten bytes, the header, the RGB bytes and the two
      planes' wire bytes, with nothing left over; each returned plane has exactly the raw
      size its shape asks for and at most the safety limit. No codec law is needed. */
  lemma AcceptedPacketPartition(c: Codecs, b: Bytes)
    requires Decode(c, b).Ok?
    ensures Inspect(c, b).Ok? && |b| >= 10
    ensures var h := Inspect(c, b).value;
            var d := Decode(c, b).value;
            && |b| == 10 + HeaderLength(b) + h.rgbByteLength + WireBytes(h.depth) + WireBytes(h.infrared)
            && |d.rgbPayload| == h.rgbByteLength
            && MatrixFits(d.depth, h.depth) && MatrixFits(d.infrared, h.infrared)
            && (h.schema.V1? ==>
                  WireBytes(h.depth) == RawBytesOf(h.depth) && WireBytes(h.infrared) == RawBytesOf(h.infrared))
  {
    hide NormalType, Supported, DecodePlane, ToMatrix, MatrixFits, ReadBigEndian;
    var h := Inspect(c, b).value;
    var start := 10 + HeaderLength(b) + h.rgbByteLength;
    DecodedPlaneFits(c, b, start, h.depth);
    DecodedPlaneFits(c, b, start + WireBytes(h.depth), h.infrared);
  }

  datatype Transport = Transport(packetBytes: nat, rgbBytes: nat, depthWire: nat, depthRaw: nat, infraredWire: nat,
                                 infraredRaw: nat, numericWire: nat, numericRaw: nat, saved: int, headroom: Option<nat>)

  function Describe(c: Codecs, b: Bytes, maxPayload: Option<int>): Result<Transport, PacketError> {
    match Inspect(c, b)
    case Err(e) => Err(e)
    case Ok(h) =>
      if h.depth.Some? && PlaneFault(h.depth.value).Some? then Err(PlaneFault(h.depth.value).value)
      else if h.infrared.Some? && PlaneFault(h.infrared.value).Some? then Err(PlaneFault(h.infrared.value).value)
      else if maxPayload.Some? && maxPayload.value <= 0 then Err(LengthWrong)
      else
        var wire := WireBytes(h.depth) + WireBytes(h.infrared);
        var raw := RawBytesOf(h.depth) + RawBytesOf(h.infrared);
        Ok(Transport(|b|, h.rgbByteLength, WireBytes(h.depth), RawBytesOf(h.depth), WireBytes(h.infrared),
                     RawBytesOf(h.infrared), wire, raw, raw - wire,
                     if maxPayload.None? then None
                     else Some(if |b| <= maxPayload.value then maxPayload.value - |b| else 0)))
  }

  /** The transport description of an accepted packet never fails and agrees with what was
      decoded: the sizes partition the packet, and the saved bytes are exactly what the
      decoded planes are larger than their wire form. */
  lemma TransportAgrees(c: Codecs, b: Bytes, maxPayload: nat)
    requires Decode(c, b).Ok? && maxPayload > 0
    ensures Describe(c, b, Some(maxPayload)).Ok?
    ensures var t := Describe(c, b, Some(maxPayload)).value;
            var d := Decode(c, b).value;
            var rawOf := (m: Option<Matrix>) => if m.Some? then 2 * |m.value.cells| else 0;
            && t.packetBytes == 10 + HeaderLength(b) + t.rgbBytes + t.depthWire + t.infraredWire
            && t.rgbBytes == |d.rgbPayload|
            && t.depthRaw == rawOf(d.depth) && t.infraredRaw == rawOf(d.infrared)
            && t.saved == rawOf(d.depth) + rawOf(d.infrared) - t.depthWire - t.infraredWire
            && (|b| <= maxPayload ==> t.headroom == Some(maxPayload - |b|))
  {
    hide Decode, Inspect, DecodeBody, NormalType, ReadBigEndian, RawBytes;
    AcceptedPacketPartition(c, b);
    AcceptedPlanes(c, b);
  }

  /** The planes of an accepted packet have no fault. */
  lemma AcceptedPlanes(c: Codecs, b: Bytes)
    requires Decode(c, b).Ok?
    ensures Inspect(c, b).Ok?
    ensures var h := Inspect(c, b).value;
            && (h.depth.Some? ==> PlaneFault(h.depth.value).None?)
            && (h.infrared.Some? ==> PlaneFault(h.infrared.value).None?)
  {
    hide NormalType, Supported, DecodePlane, ToMatrix, MatrixFits, ReadBigEndian, PlaneFault;
    var h := Inspect(c, b).value;
    var start := 10 + HeaderLength(b) + h.rgbByteLength;
    DecodedPlaneFits(c, b, start, h.depth);
    DecodedPlaneFits(c, b, start + WireBytes(h.depth), h.infrared);
  }
}
