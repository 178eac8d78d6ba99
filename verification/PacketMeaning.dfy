/** What a sensor packet is, byte by byte: exactly which packets are accepted, what they hold,
    why the others are refused, and which packets the encoder makes. */
module PacketMeaning {
  import opened Wrappers
  import opened Text
  import opened SensorPacket

  /** The text up to the first semicolon. */
  predicate UpToSemicolon(s: string, n: nat) {
    n <= |s| && (n < |s| ==> s[n] == ';') && forall i :: 0 <= i < n ==> s[i] != ';'
  }

  /** Letter by letter the same but for ASCII capitals. */
  predicate LowerOf(u: string, t: string) {
    |u| == |t| && forall i :: 0 <= i < |t| ==>
      u[i] as int == if 65 <= t[i] as int <= 90 then t[i] as int + 32 else t[i] as int
  }

  /** A media type as it is compared: parameters cut off, trimmed, in lower case. */
  ghost predicate TypeOf(s: string, u: string) {
    exists n: nat, t :: UpToSemicolon(s, n) && Trimmed(s[..n], t) && LowerOf(u, t)
  }

  lemma {:induction false} CutAtSemicolon(s: string) returns (n: nat)
    ensures UpToSemicolon(s, n) && BeforeSemicolon(s) == s[..n]
  {
    n := 0;
    if s != "" && s[0] != ';' {
      var k := CutAtSemicolon(s[1..]);
      n := k + 1;
      assert s[..n] == [s[0]] + s[1..][..k];
      assert forall i :: 0 < i < |s| ==> s[i] == s[1..][i - 1];
    }
  }

  lemma NormalTypeMeans(s: string)
    ensures TypeOf(s, NormalType(s))
  {
    hide Trimmed, Strip;
    var n := CutAtSemicolon(s);
    StripTrims(s[..n]);
    assert LowerOf(NormalType(s), Strip(s[..n]));
  }

  // ---------------------------------------------------------------- accepted packets

  /** Four bytes, most significant first. */
  function Number(b: Bytes): nat
    requires |b| >= 10
  {
    ((b[6] as nat * 256 + b[7] as nat) * 256 + b[8] as nat) * 256 + b[9] as nat
  }

  predicate Magic(b: Bytes, last: byte) {
    |b| >= 6 && b[0] == 0x56 && b[1] == 0x52 && b[2] == 0x53 && b[3] == 0x50 && b[4] == last && b[5] == 0
  }

  /** The header a packet names, wherever it stands. */
  predicate HasHeader(c: Codecs, b: Bytes, h: Header) {
    && |b| >= 10
    && 2 <= Number(b) <= 65536 && 10 + Number(b) <= |b|
    && c.parse(b[10..10 + Number(b)]) == Some(h)
    && (if h.schema.V1? then Magic(b, 0x31) else Magic(b, 0x32))
    && (h.schema.V1? && h.depth.Some? ==>
          h.depth.value.compression == NoCompression && h.depth.value.rawByteLength.None?)
    && (h.schema.V1? && h.infrared.Some? ==>
          h.infrared.value.compression == NoCompression && h.infrared.value.rawByteLength.None?)
  }

  lemma NumberIsHeaderLength(b: Bytes)
    requires |b| >= 10
    ensures HeaderLength(b) == Number(b)
  {}

  lemma MagicIs(b: Bytes)
    requires |b| >= 10
    ensures b[..6] == MAGIC_V1 <==> Magic(b, 0x31)
    ensures b[..6] == MAGIC_V2 <==> Magic(b, 0x32)
  {
    assert forall i :: 0 <= i < 6 ==> b[..6][i] == b[i];
  }

  /** Inspecting succeeds exactly with the header the packet has. */
  lemma InspectMeans(c: Codecs, b: Bytes, h: Header)
    ensures Inspect(c, b) == Ok(h) <==> HasHeader(c, b, h)
  {
    hide ReadBigEndian, Number;
    if |b| >= 10 {
      NumberIsHeaderLength(b);
      MagicIs(b);
    }
  }

  /** What a plane's bytes on the wire stand for, when they are in order: themselves, or one
      whole zlib stream of the right size with nothing behind it. */
  ghost predicate StandsFor(c: Codecs, p: Plane, wire: Bytes, raw: Bytes) {
    && |raw| == 2 * (p.width * p.height) <= 33554432
    && |wire| == p.byteLength
    && (p.rawByteLength.Some? ==> p.rawByteLength.value == |raw|)
    && (if p.compression.NoCompression? then raw == wire
        else
          match c.inflate(wire, |raw| + 1)
          case ZlibError => false
          case Inflated(out, tail, flushed, eof, unused) =>
            raw == out + flushed && tail == [] && eof && unused == [])
  }

  lemma DecodePlaneMeans(c: Codecs, p: Plane, wire: Bytes, raw: Bytes)
    ensures DecodePlane(c, p, wire) == Ok(raw) <==> StandsFor(c, p, wire, raw)
  {}

  /** The matrix that raw bytes are: row by row, each cell low byte first. */
  predicate Shows(m: Matrix, p: Plane, raw: Bytes) {
    && m.width == p.width && m.height == p.height && 2 * |m.cells| == |raw|
    && forall k :: 0 <= k < |m.cells| ==> m.cells[k] as int == raw[2 * k] as int + 256 * (raw[2 * k + 1] as int)
  }

  lemma {:induction false} CellsShown(raw: Bytes, k: nat)
    requires |raw| % 2 == 0 && 2 * k < |raw|
    ensures BytesToCells(raw)[k] as int == raw[2 * k] as int + 256 * (raw[2 * k + 1] as int)
  {
    if 2 * k < |raw| - 2 {
      CellsShown(raw[..|raw| - 2], k);
    }
  }

  /** The plane of a packet between two offsets. */
  ghost predicate PlaneHeld(c: Codecs, b: Bytes, from: nat, to: nat, p: Option<Plane>, m: Option<Matrix>) {
    && from <= to <= |b|
    && (p.Some? <==> m.Some?)
    && (p.None? ==> from == to)
    && (p.Some? ==> exists raw: Bytes :: StandsFor(c, p.value, b[from..to], raw) && Shows(m.value, p.value, raw))
  }

  lemma PlaneAtMeans(c: Codecs, b: Bytes, from: nat, to: nat, p: Option<Plane>, m: Option<Matrix>)
    requires from <= |b|
    ensures PlaneHeld(c, b, from, to, p, m) <==>
              PlaneAt(c, b, from, p).Ok? && PlaneAt(c, b, from, p).value.1 == to
              && ToMatrix(p, PlaneAt(c, b, from, p).value.0) == m
  {
    hide DecodePlane, StandsFor, Shows, ToMatrix;
    NoMatrix();
    if p.Some? && from + p.value.byteLength <= |b| {
      PlaneBytesMean(c, b, from, p.value);
      if PlaneHeld(c, b, from, to, p, m) {
        var raw: Bytes :| StandsFor(c, p.value, b[from..to], raw) && Shows(m.value, p.value, raw);
        WireLength(c, p.value, b[from..to], raw);
        DecodePlaneMeans(c, p.value, b[from..to], raw);
        ShownOnce(p.value, raw, m.value);
      }
    } else if PlaneHeld(c, b, from, to, p, m) && p.Some? {
      var raw: Bytes :| StandsFor(c, p.value, b[from..to], raw) && Shows(m.value, p.value, raw);
      WireLength(c, p.value, b[from..to], raw);
    }
  }

  lemma NoMatrix()
    ensures forall raw :: ToMatrix(None, raw) == None
  {}

  lemma PlaneBytesMean(c: Codecs, b: Bytes, from: nat, p: Plane)
    requires from + p.byteLength <= |b|
    ensures var wire := b[from..from + p.byteLength];
            DecodePlane(c, p, wire).Ok? ==>
              var raw := DecodePlane(c, p, wire).value;
              && StandsFor(c, p, wire, raw) && |raw| % 2 == 0
              && ToMatrix(Some(p), Some(raw)).Some?
              && Shows(ToMatrix(Some(p), Some(raw)).value, p, raw)
  {
    hide DecodePlane, StandsFor;
    var wire := b[from..from + p.byteLength];
    if DecodePlane(c, p, wire).Ok? {
      var raw := DecodePlane(c, p, wire).value;
      DecodePlaneMeans(c, p, wire, raw);
      WireLength(c, p, wire, raw);
      forall k | 0 <= k < |raw| / 2
        ensures BytesToCells(raw)[k] as int == raw[2 * k] as int + 256 * (raw[2 * k + 1] as int)
      {
        CellsShown(raw, k);
      }
    }
  }

  lemma WireLength(c: Codecs, p: Plane, wire: Bytes, raw: Bytes)
    requires StandsFor(c, p, wire, raw)
    ensures |wire| == p.byteLength && |raw| % 2 == 0
  {
    assert |raw| == 2 * (p.width * p.height);
  }

  lemma ShownOnce(p: Plane, raw: Bytes, m: Matrix)
    requires |raw| % 2 == 0 && Shows(m, p, raw)
    ensures ToMatrix(Some(p), Some(raw)) == Some(m)
  {
    var n := ToMatrix(Some(p), Some(raw)).value;
    forall k | 0 <= k < |m.cells| ensures m.cells[k] == n.cells[k] {
      CellsShown(raw, k);
    }
    assert m.cells == n.cells;
  }

  /** A packet with this header holds these values, and nothing else, in this order. */
  ghost predicate Contains(c: Codecs, b: Bytes, h: Header, d: Decoded) {
    && HasHeader(c, b, h)
    && TypeOf(h.rgbContentType, d.rgbContentType)
    && d.rgbContentType in {"image/jpeg", "image/png", "image/webp"}
    && (h.depth.Some? ==> h.depth.value.alignment == Some("color"))
    && var start := 10 + Number(b);
       var rgbEnd := start + h.rgbByteLength;
       var depthEnd := rgbEnd + WireBytes(h.depth);
       && rgbEnd <= |b| && d.rgbPayload == b[start..rgbEnd]
       && PlaneHeld(c, b, rgbEnd, depthEnd, h.depth, d.depth)
       && PlaneHeld(c, b, depthEnd, |b|, h.infrared, d.infrared)
  }

  lemma {:induction false} TypeIsOne(s: string, u: string)
    requires TypeOf(s, u)
    ensures u == NormalType(s)
  {
    hide Trimmed, Strip;
    var n: nat, t :| UpToSemicolon(s, n) && Trimmed(s[..n], t) && LowerOf(u, t);
    var m := CutAtSemicolon(s);
    assert m == n;
    StripTrims(s[..n]);
    TrimmedOnce(s[..n], t, Strip(s[..n]));
    LoweredOnce(t, u, NormalType(s));
  }

  lemma LoweredOnce(t: string, u: string, v: string)
    requires LowerOf(u, t) && LowerOf(v, t)
    ensures u == v
  {}

  lemma BodyMeans(c: Codecs, h: Header, b: Bytes, d: Decoded)
    requires HasHeader(c, b, h)
    ensures DecodeBody(c, h, b, 10 + Number(b)) == Ok(d) <==> Contains(c, b, h, d)
  {
    hide HasHeader, NormalType, PlaneAt, ToMatrix, PlaneHeld, TypeOf, Number;
    HeaderInside(c, b, h);
    NormalTypeMeans(h.rgbContentType);
    if TypeOf(h.rgbContentType, d.rgbContentType) {
      TypeIsOne(h.rgbContentType, d.rgbContentType);
    }
    var start := 10 + Number(b);
    var rgbEnd := start + h.rgbByteLength;
    var depthEnd := rgbEnd + WireBytes(h.depth);
    if rgbEnd <= |b| {
      PlaneAtMeans(c, b, rgbEnd, depthEnd, h.depth, d.depth);
      PlaneAtEnds(c, b, rgbEnd, h.depth);
      if depthEnd <= |b| {
        PlaneAtMeans(c, b, depthEnd, |b|, h.infrared, d.infrared);
      } else {
        NotHeldBeyond(c, b, rgbEnd, depthEnd, h.depth, d.depth);
      }
    }
  }

  lemma PlaneAtEnds(c: Codecs, b: Bytes, offset: nat, p: Option<Plane>)
    requires offset <= |b|
    ensures PlaneAt(c, b, offset, p).Ok? ==> PlaneAt(c, b, offset, p).value.1 == offset + WireBytes(p) <= |b|
  {
    hide DecodePlane;
  }

  lemma NotHeldBeyond(c: Codecs, b: Bytes, from: nat, to: nat, p: Option<Plane>, m: Option<Matrix>)
    requires to > |b|
    ensures !PlaneHeld(c, b, from, to, p, m)
  {}

  /** A packet is accepted, as these values, if and only if it consists of a magic, a header in
      order, the RGB bytes and the planes the header names, and nothing else. */
  lemma AcceptedExactly(c: Codecs, b: Bytes, d: Decoded)
    ensures Decode(c, b) == Ok(d) <==> exists h :: Contains(c, b, h, d)
  {
    hide Contains, Inspect, DecodeBody, HeaderLength, HasHeader;
    if Inspect(c, b).Ok? {
      var h := Inspect(c, b).value;
      InspectMeans(c, b, h);
      HeaderInside(c, b, h);
      NumberIsHeaderLength(b);
      BodyMeans(c, h, b, d);
    }
    if h :| Contains(c, b, h, d) {
      ContainsHeader(c, b, h, d);
      InspectMeans(c, b, h);
    }
  }

  lemma HeaderInside(c: Codecs, b: Bytes, h: Header)
    requires HasHeader(c, b, h)
    ensures |b| >= 10
  {}

  // ---------------------------------------------------------------- refused packets

  /** Why a plane is refused, given its bytes. */
  predicate PlaneRefused(c: Codecs, p: Plane, e: PacketError) {
    match e
    case PlaneTooLarge => 2 * (p.width * p.height) > 33554432
    case RawLengthWrong => p.rawByteLength.Some? && p.rawByteLength.value != 2 * (p.width * p.height)
    case LengthWrong => p.compression.NoCompression? && p.byteLength != 2 * (p.width * p.height)
    case ZlibInvalid => p.compression.Zlib?
    case ZlibTooLong => p.compression.Zlib?
    case ZlibTooShort => p.compression.Zlib?
    case ZlibTrailing => p.compression.Zlib?
    case _ => false
  }

  /** What is wrong with a stream that is refused. */
  predicate StreamRefused(c: Codecs, p: Plane, wire: Bytes, e: PacketError) {
    var size := 2 * (p.width * p.height);
    var x := c.inflate(wire, size + 1);
    match e
    case ZlibInvalid => x.ZlibError?
    case ZlibTooLong => x.Inflated? && (x.tail != [] || |x.raw| > size || |x.raw + x.flushed| > size)
    case ZlibTooShort => x.Inflated? && |x.raw + x.flushed| < size
    case ZlibTrailing => x.Inflated? && |x.raw + x.flushed| == size && (!x.eof || x.unused != [])
    case _ => true
  }

  lemma PlaneRefusals(c: Codecs, p: Plane, wire: Bytes)
    requires DecodePlane(c, p, wire).Err? && |wire| == p.byteLength
    ensures PlaneRefused(c, p, DecodePlane(c, p, wire).error)
    ensures StreamRefused(c, p, wire, DecodePlane(c, p, wire).error)
  {}

  /** What must be wrong with a packet that is refused with each error. */
  predicate Refused(c: Codecs, b: Bytes, e: PacketError) {
    match e
    case Truncated => |b| < 10 || 10 + Number(b) > |b|
    case BadMagic => |b| >= 10 && !Magic(b, 0x31) && !Magic(b, 0x32)
    case BadHeaderLength => |b| >= 10 && (Number(b) < 2 || Number(b) > 65536)
    case BadHeader => |b| >= 10 && 10 + Number(b) <= |b| && c.parse(b[10..10 + Number(b)]).None?
    case _ =>
      && |b| >= 10 && 10 + Number(b) <= |b| && c.parse(b[10..10 + Number(b)]).Some?
      && BodyFaulty(c, b, c.parse(b[10..10 + Number(b)]).value, e)
  }

  /** The same of what follows a header that parses. */
  predicate BodyFaulty(c: Codecs, b: Bytes, h: Header, e: PacketError)
    requires |b| >= 10
  {
    var rgbEnd := 10 + Number(b) + h.rgbByteLength;
    var end := rgbEnd + WireBytes(h.depth) + WireBytes(h.infrared);
    || (e == VersionMismatch && !Magic(b, if h.schema.V1? then 0x31 else 0x32))
    || (e == CompressedV1 && h.schema.V1? && !(PlainPlane(h.depth) && PlainPlane(h.infrared)))
    || (e == MediaTypeUnsupported && NormalType(h.rgbContentType) !in {"image/jpeg", "image/png", "image/webp"})
    || (e == RgbTruncated && rgbEnd > |b|)
    || (e == DepthUnaligned && Unaligned(h.depth))
    || (e == PlaneTruncated && end > |b|)
    || (e == TrailingBytes && end < |b|)
    || (h.depth.Some? && PlaneRefused(c, h.depth.value, e))
    || (h.infrared.Some? && PlaneRefused(c, h.infrared.value, e))
  }

  predicate Unaligned(p: Option<Plane>) {
    p.Some? && p.value.alignment != Some("color")
  }

  lemma PlaneAtRefused(c: Codecs, b: Bytes, offset: nat, p: Option<Plane>)
    requires offset <= |b| && PlaneAt(c, b, offset, p).Err?
    ensures p.Some?
    ensures var e := PlaneAt(c, b, offset, p).error;
            if e.PlaneTruncated? then offset + WireBytes(p) > |b| else PlaneRefused(c, p.value, e)
  {
    hide DecodePlane, PlaneRefused;
    if p.Some? && offset + p.value.byteLength <= |b| {
      PlaneRefusals(c, p.value, b[offset..offset + p.value.byteLength]);
      NoTruncation(c, p.value, b[offset..offset + p.value.byteLength]);
    }
  }

  lemma NoTruncation(c: Codecs, p: Plane, wire: Bytes)
    ensures DecodePlane(c, p, wire) != Err(PlaneTruncated)
  {}

  lemma NoPlaneFault(c: Codecs, p: Plane)
    ensures forall e :: PlaneRefused(c, p, e) ==>
              e.PlaneTooLarge? || e.RawLengthWrong? || e.LengthWrong? || e.ZlibInvalid? || e.ZlibTooLong?
              || e.ZlibTooShort? || e.ZlibTrailing?
  {}

  lemma BodyRefused(c: Codecs, h: Header, b: Bytes)
    requires HasHeader(c, b, h) && DecodeBody(c, h, b, 10 + Number(b)).Err?
    ensures Refused(c, b, DecodeBody(c, h, b, 10 + Number(b)).error)
  {
    hide NormalType, PlaneAt, ToMatrix, PlaneRefused, Number, Magic, PlainPlane;
    var rgbEnd := 10 + Number(b) + h.rgbByteLength;
    if rgbEnd <= |b| {
      PlaneAtEnds(c, b, rgbEnd, h.depth);
      if PlaneAt(c, b, rgbEnd, h.depth).Err? {
        PlaneAtRefused(c, b, rgbEnd, h.depth);
        NoPlaneFault(c, h.depth.value);
      } else {
        var afterDepth := PlaneAt(c, b, rgbEnd, h.depth).value.1;
        PlaneAtEnds(c, b, afterDepth, h.infrared);
        if PlaneAt(c, b, afterDepth, h.infrared).Err? {
          PlaneAtRefused(c, b, afterDepth, h.infrared);
          NoPlaneFault(c, h.infrared.value);
        }
      }
    }
  }

  /** Every refusal names something that is wrong with the packet. */
  lemma RefusedForAReason(c: Codecs, b: Bytes)
    requires Decode(c, b).Err?
    ensures Refused(c, b, Decode(c, b).error)
  {
    hide ReadBigEndian, Number, DecodeBody, PlaneRefused;
    if |b| >= 10 {
      NumberIsHeaderLength(b);
      MagicIs(b);
    }
    if Inspect(c, b).Ok? {
      var h := Inspect(c, b).value;
      InspectMeans(c, b, h);
      BodyRefused(c, h, b);
    }
  }

  // ---------------------------------------------------------------- what the encoder makes

  /** How a plane is put on the wire: raw, as a zlib stream, or as whichever is shorter. */
  lemma PlaneIsWired(c: Codecs, m: Matrix, mode: Mode, alignment: Option<string>)
    requires EncodePlane(c, m, mode, alignment).Ok?
    ensures var (p, wire) := EncodePlane(c, m, mode, alignment).value;
            var raw := CellBytes(m.cells);
            && p.width == m.width && p.height == m.height && p.alignment == alignment && p.byteLength == |wire|
            && (p.compression.Zlib? ==> wire == c.compress(raw) && p.rawByteLength == Some(|raw|))
            && (p.compression.NoCompression? ==> wire == raw && p.rawByteLength.None?)
            && (mode.Never? ==> p.compression.NoCompression?)
            && (mode.Always? ==> p.compression.Zlib?)
            && (mode.Auto? ==> |wire| <= |raw| && |wire| <= |c.compress(raw)|)
            && (mode.Auto? && |c.compress(raw)| == |raw| ==> p.compression.NoCompression?)
  {}

  /** Sides of 1 to 8192 and at most 32 MiB raw. */
  predicate Encodable(m: Option<Matrix>) {
    m.Some? ==>
      && 1 <= m.value.width <= 8192 && 1 <= m.value.height <= 8192
      && 2 * |m.value.cells| <= 33554432
  }

  lemma PlaneEncodes(c: Codecs, m: Option<Matrix>, mode: Mode, alignment: Option<string>)
    requires Lawful(c) && (m.Some? ==> Shaped(m.value))
    ensures EncodeOptional(c, m, mode, alignment).Ok? <==> Encodable(m)
    ensures EncodeOptional(c, m, mode, alignment) == Err(PlaneTooLarge) <==>
              m.Some? && 2 * |m.value.cells| > 33554432
    ensures EncodeOptional(c, m, mode, alignment).Err? ==>
              EncodeOptional(c, m, mode, alignment).error in {PlaneTooLarge, ShapeRejected}
  {
    hide CellBytes;
    if m.Some? {
      CompressedIsSome(c, CellBytes(m.value.cells));
      if Encodable(m) {
        CellsPositive(m.value.width, m.value.height);
      }
    }
  }

  lemma CompressedIsSome(c: Codecs, x: Bytes)
    requires Lawful(c)
    ensures |c.compress(x)| >= 1
  {}

  lemma CellsPositive(width: nat, height: nat)
    requires width >= 1 && height >= 1
    ensures Area(width, height) >= 1
  {}

  /** Encoding goes through for RGB bytes of a supported type, planes within the limits and no
      compression in version one, unless the header text outgrows its limit. */
  lemma EncodesExactly(c: Codecs, rgb: Bytes, rgbContentType: string, depth: Option<Matrix>,
                       infrared: Option<Matrix>, mode: Mode, choice: VersionChoice)
    requires Lawful(c)
    requires depth.Some? ==> Shaped(depth.value)
    requires infrared.Some? ==> Shaped(infrared.value)
    ensures var r := Encode(c, rgb, rgbContentType, depth, infrared, mode, choice);
            var typed := NormalType(rgbContentType) in {"image/jpeg", "image/png", "image/webp"};
            && (r.Ok? || r == Err(HeaderTooLarge) <==>
                  rgb != [] && typed && (choice.ChooseV1? ==> mode.Never?) && Encodable(depth) && Encodable(infrared))
            && (r == Err(HeaderTooLarge) ==> exists h: Header :: h.rgbByteLength == |rgb| && |c.dump(h)| > 65536)
            && (r == Err(RgbEmpty) <==> rgb == [])
            && (r == Err(MediaTypeUnsupported) <==> rgb != [] && !typed)
            && (r == Err(ModeRejected) <==> rgb != [] && typed && choice.ChooseV1? && !mode.Never?)
  {
    hide EncodeOptional, NormalType, Encodable, Lawful, Shaped;
    PlaneEncodes(c, depth, mode, Some("color"));
    PlaneEncodes(c, infrared, mode, None);
  }

  /** A packet of version two is made on demand, and for planes that may be compressed. */
  lemma VersionIsChosen(c: Codecs, rgb: Bytes, rgbContentType: string, depth: Option<Matrix>,
                        infrared: Option<Matrix>, mode: Mode, choice: VersionChoice, b: Bytes)
    requires Encode(c, rgb, rgbContentType, depth, infrared, mode, choice) == Ok(b)
    ensures if choice.ChooseV1? || (choice.ChooseAuto? && mode.Never?) then Magic(b, 0x31) else Magic(b, 0x32)
  {
    hide EncodeOptional, NormalType;
  }

  /** The transport description of an accepted packet: refused only for a limit that is not
      positive, with the sums of both planes and the room that is left under the limit. */
  lemma TransportMeans(c: Codecs, b: Bytes, maxPayload: Option<int>)
    requires Decode(c, b).Ok?
    ensures Describe(c, b, maxPayload).Ok? <==> (maxPayload.Some? ==> maxPayload.value >= 1)
    ensures Describe(c, b, maxPayload).Ok? ==>
              var t := Describe(c, b, maxPayload).value;
              && t.numericWire == t.depthWire + t.infraredWire && t.numericRaw == t.depthRaw + t.infraredRaw
              && t.saved == t.numericRaw - t.numericWire
              && (maxPayload.None? ==> t.headroom == None)
              && (maxPayload.Some? && |b| >= maxPayload.value ==> t.headroom == Some(0))
              && (maxPayload.Some? && |b| <= maxPayload.value ==> t.headroom == Some(maxPayload.value - |b|))
  {
    hide Decode, Inspect, RawBytes, PlaneFault;
    AcceptedPlanes(c, b);
  }

  lemma ContainsHeader(c: Codecs, b: Bytes, h: Header, d: Decoded)
    requires Contains(c, b, h, d)
    ensures HasHeader(c, b, h)
  {}
}
