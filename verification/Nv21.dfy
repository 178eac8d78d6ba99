/** Conversion of a three-plane YUV420 camera image to the NV21 layout: all luma bytes row
    by row, then for each chroma cell its V byte and its U byte. */
module Nv21 {
  import opened Wrappers

  type Byte = b: int | 0 <= b < 256

  /** A plane's buffer up to its limit, read by absolute position from `base` on. */
  datatype Plane = Plane(buffer: seq<Byte>, base: nat, rowStride: int, pixelStride: int)

  /** 32-bit two's complement. */
  function Int32(x: int): int {
    (x + 0x8000_0000) % 0x1_0000_0000 - 0x8000_0000
  }

  lemma Int32IsTwosComplement(x: int)
    ensures -2147483648 <= Int32(x) <= 2147483647
    ensures (x - Int32(x)) % 4294967296 == 0
  {
    var k := (x + 0x8000_0000) / 0x1_0000_0000;
    assert x - Int32(x) == k * 4294967296;
  }

  function Index(p: Plane, row: nat, col: nat): int {
    Int32(p.base + row * p.rowStride + col * p.pixelStride)
  }

  /** None is an out-of-bounds position. */
  function Read(p: Plane, row: nat, col: nat): Option<Byte> {
    var index := Index(p, row, col);
    if 0 <= index < |p.buffer| then Some(p.buffer[index]) else None
  }

  predicate Readable(p: Plane, row: nat, col: nat) {
    Read(p, row, col).Some?
  }

  function At(p: Plane, row: nat, col: nat): Byte {
    if Readable(p, row, col) then Read(p, row, col).value else 0
  }

  ghost predicate RowReadable(p: Plane, row: nat, width: nat) {
    forall col: nat :: col < width ==> Readable(p, row, col)
  }

  ghost predicate PlaneReadable(p: Plane, width: nat, height: nat) {
    forall row: nat :: row < height ==> RowReadable(p, row, width)
  }

  // ---------------------------------------------------------------- what is written

  function RowBytes(p: Plane, row: nat, width: nat): (s: seq<Byte>)
    ensures |s| == width
  {
    if width == 0 then [] else RowBytes(p, row, width - 1) + [At(p, row, width - 1)]
  }

  function PlaneBytes(p: Plane, width: nat, height: nat): seq<Byte> {
    if height == 0 then [] else PlaneBytes(p, width, height - 1) + RowBytes(p, height - 1, width)
  }

  function CellRow(u: Plane, v: Plane, row: nat, width: nat): (s: seq<Byte>)
    ensures |s| == 2 * width
  {
    if width == 0 then [] else CellRow(u, v, row, width - 1) + [At(v, row, width - 1), At(u, row, width - 1)]
  }

  function CellBytes(u: Plane, v: Plane, width: nat, height: nat): seq<Byte> {
    if height == 0 then [] else CellBytes(u, v, width, height - 1) + CellRow(u, v, height - 1, width)
  }

  lemma {:induction false} PlaneSize(p: Plane, width: nat, height: nat)
    ensures |PlaneBytes(p, width, height)| == height * width
  {
    if height > 0 {
      PlaneSize(p, width, height - 1);
    }
  }

  lemma {:induction false} CellSize(u: Plane, v: Plane, width: nat, height: nat)
    ensures |CellBytes(u, v, width, height)| == 2 * (height * width)
  {
    if height > 0 {
      CellSize(u, v, width, height - 1);
      assert height * width == (height - 1) * width + width;
    }
  }

  /** Luma and chroma cells: all that is ever written. */
  function Written(y: Plane, u: Plane, v: Plane, width: nat, height: nat): seq<Byte> {
    PlaneBytes(y, width, height) + CellBytes(u, v, width / 2, height / 2)
  }

  /** Output bytes that the two copies leave alone. */
  function Unwritten(width: nat, height: nat): int {
    width * height * 3 / 2 - height * width - 2 * ((height / 2) * (width / 2))
  }

  /** One row or column of luma goes without chroma for each odd dimension. */
  lemma UnwrittenCount(width: nat, height: nat)
    ensures Unwritten(width, height) == (width / 2) * (height % 2) + (height / 2) * (width % 2) >= 0
  {
    var a, i, b, j := width / 2, width % 2, height / 2, height % 2;
    Expand(a, i, b, j);
    assert width == 2 * a + i && height == 2 * b + j;
    Quarter(a * b, a * j, b * i, i * j);
    assert b * a == a * b && width * height == height * width;
  }

  lemma Expand(a: nat, i: nat, b: nat, j: nat)
    requires i <= 1 && j <= 1
    ensures (2 * a + i) * (2 * b + j) == 4 * (a * b) + 2 * (a * j) + 2 * (b * i) + i * j
    ensures i * j <= 1 && a * j >= 0 && b * i >= 0
  {}

  lemma Quarter(ab: nat, aj: nat, bi: nat, ij: nat)
    requires ij <= 1
    ensures var n := 4 * ab + 2 * aj + 2 * bi + ij; n * 3 / 2 - n - 2 * ab == aj + bi
  {}

  function Nv21Bytes(y: Plane, u: Plane, v: Plane, width: nat, height: nat): seq<Byte> {
    UnwrittenCount(width, height);
    Written(y, u, v, width, height) + seq(Unwritten(width, height), _ => 0)
  }

  /** The output has three bytes to every two pixels, and what is not written stays zero. */
  lemma RestIsZero(y: Plane, u: Plane, v: Plane, width: nat, height: nat)
    ensures |Nv21Bytes(y, u, v, width, height)| == width * height * 3 / 2
    ensures forall k :: |Written(y, u, v, width, height)| <= k < |Nv21Bytes(y, u, v, width, height)| ==>
              Nv21Bytes(y, u, v, width, height)[k] == 0
  {
    hide PlaneBytes, CellBytes;
    UnwrittenCount(width, height);
    PlaneSize(y, width, height);
    CellSize(u, v, width / 2, height / 2);
  }

  // ---------------------------------------------------------------- the copies

  lemma NextRow(p: Plane, width: nat, row: nat)
    ensures PlaneBytes(p, width, 0) == []
    ensures PlaneBytes(p, width, row + 1) == PlaneBytes(p, width, row) + RowBytes(p, row, width)
  {}

  lemma NextCell(u: Plane, v: Plane, row: nat, col: nat)
    ensures CellRow(u, v, row, 0) == []
    ensures CellRow(u, v, row, col + 1) == CellRow(u, v, row, col) + [At(v, row, col), At(u, row, col)]
  {}

  lemma NextCells(u: Plane, v: Plane, width: nat, row: nat)
    ensures CellBytes(u, v, width, 0) == []
    ensures CellBytes(u, v, width, row + 1) == CellBytes(u, v, width, row) + CellRow(u, v, row, width)
  {}

  lemma {:induction false} RowsFit(p: Plane, width: nat, row: nat, height: nat)
    requires row <= height
    ensures |PlaneBytes(p, width, row)| <= |PlaneBytes(p, width, height)|
  {
    if row < height {
      RowsFit(p, width, row, height - 1);
    }
  }

  lemma {:induction false} CellsFit(u: Plane, v: Plane, width: nat, row: nat, height: nat)
    requires row <= height
    ensures |CellBytes(u, v, width, row)| <= |CellBytes(u, v, width, height)|
  {
    if row < height {
      CellsFit(u, v, width, row, height - 1);
    }
  }

  lemma RowGrows(p: Plane, row: nat, col: nat, width: nat)
    requires RowReadable(p, row, col) && col < width
    ensures Readable(p, row, col) ==> RowReadable(p, row, col + 1)
    ensures !Readable(p, row, col) ==> !RowReadable(p, row, width)
  {
    hide Readable;
  }

  lemma PlaneGrows(p: Plane, width: nat, row: nat, height: nat)
    requires PlaneReadable(p, width, row) && row < height
    ensures RowReadable(p, row, width) ==> PlaneReadable(p, width, row + 1)
    ensures !RowReadable(p, row, width) ==> !PlaneReadable(p, width, height)
  {
    hide RowReadable;
  }

  lemma NothingToRead(p: Plane, row: nat, width: nat)
    ensures RowReadable(p, row, 0) && PlaneReadable(p, width, 0)
  {}

  /** Writing the next byte of a buffer whose first part is done. */
  lemma PutNext(done: seq<Byte>, x: Byte, original: seq<Byte>)
    requires |done| < |original|
    ensures (done + original[|done|..])[|done| := x] == done + [x] + original[|done| + 1..]
  {}

  lemma OneMore(above: seq<Byte>, line: seq<Byte>, a: Byte)
    ensures above + line + [a] == above + (line + [a])
  {}

  lemma TwoMore(above: seq<Byte>, line: seq<Byte>, a: Byte, b: Byte)
    ensures above + line + [a, b] == above + (line + [a, b])
  {}

  lemma PutTwo(done: seq<Byte>, a: Byte, b: Byte, original: seq<Byte>)
    requires |done| + 1 < |original|
    ensures (done + original[|done|..])[|done| := a][|done| + 1 := b] == done + [a, b] + original[|done| + 2..]
  {}

  /** Adding a line to a buffer whose part from `prefix` on is done as far as `above`. */
  lemma AddLine(prefix: seq<Byte>, above: seq<Byte>, line: seq<Byte>, original: seq<Byte>)
    requires |prefix| + |above| + |line| <= |original|
    ensures var k := |prefix| + |above|;
            var before := prefix + above + original[k..];
            before[..k] + line + before[k + |line|..] == prefix + (above + line) + original[k + |line|..]
  {}

  lemma ZerosRemain(luma: seq<Byte>, cells: seq<Byte>, size: nat)
    requires |luma| + |cells| <= size
    ensures var zeros: seq<Byte> := seq(size, _ => 0);
            var first := zeros[..0] + luma + zeros[|luma|..];
            first[..|luma|] + cells + first[|luma| + |cells|..] == luma + cells + seq(size - |luma| - |cells|, _ => 0)
  {
    var zeros: seq<Byte> := seq(size, _ => 0);
    var first := zeros[..0] + luma + zeros[|luma|..];
    assert first == luma + zeros[|luma|..];
    TailOf(luma, zeros[|luma|..], |cells|);
    assert zeros[|luma|..][|cells|..] == seq(size - |luma| - |cells|, _ => 0);
  }

  lemma TailOf(head: seq<Byte>, tail: seq<Byte>, n: nat)
    requires n <= |tail|
    ensures (head + tail)[..|head|] == head && (head + tail)[|head| + n..] == tail[n..]
  {}

  /** The inner loop of `CopyPlane`. */
  method CopyRow(p: Plane, row: nat, width: nat, dst: array<Byte>, start: nat) returns (ok: bool)
    requires start + width <= dst.Length
    modifies dst
    ensures ok <==> RowReadable(p, row, width)
    ensures ok ==> dst[..] == old(dst[..start]) + RowBytes(p, row, width) + old(dst[start + width..])
  {
    hide Read, RowReadable;
    ghost var original := dst[..];
    ghost var done := original[..start];
    var out := start;
    var col := 0;
    NothingToRead(p, row, width);
    while col < width
      invariant 0 <= col <= width && RowReadable(p, row, col)
      invariant done == original[..start] + RowBytes(p, row, col)
      invariant out == |done| && dst[..] == done + original[out..]
    {
      var sample := Read(p, row, col);
      RowGrows(p, row, col, width);
      if sample.None? {
        return false;
      }
      PutNext(done, sample.value, original);
      dst[out] := sample.value;
      done := done + [sample.value];
      OneMore(original[..start], RowBytes(p, row, col), sample.value);
      out := out + 1;
      col := col + 1;
    }
    ok := true;
  }

  method CopyPlane(p: Plane, width: nat, height: nat, dst: array<Byte>, offset: nat) returns (ok: bool)
    requires offset + |PlaneBytes(p, width, height)| <= dst.Length
    modifies dst
    ensures ok <==> PlaneReadable(p, width, height)
    ensures ok ==> dst[..] == old(dst[..offset]) + PlaneBytes(p, width, height)
                              + old(dst[offset + |PlaneBytes(p, width, height)|..])
  {
    hide RowReadable, PlaneReadable, RowBytes, PlaneBytes;
    ghost var original := dst[..];
    var out := offset;
    var row := 0;
    NothingToRead(p, 0, width);
    NextRow(p, width, 0);
    while row < height
      invariant 0 <= row <= height && PlaneReadable(p, width, row)
      invariant out == offset + |PlaneBytes(p, width, row)| <= dst.Length
      invariant dst[..] == original[..offset] + PlaneBytes(p, width, row) + original[out..]
    {
      RowsFit(p, width, row + 1, height);
      NextRow(p, width, row);
      PlaneGrows(p, width, row, height);
      AddLine(original[..offset], PlaneBytes(p, width, row), RowBytes(p, row, width), original);
      var copied := CopyRow(p, row, width, dst, out);
      if !copied {
        return false;
      }
      out := out + width;
      row := row + 1;
    }
    ok := true;
  }

  /** The inner loop of `CopyChromaNv21`. */
  method CopyCells(u: Plane, v: Plane, row: nat, width: nat, dst: array<Byte>, start: nat) returns (ok: bool)
    requires start + 2 * width <= dst.Length
    modifies dst
    ensures ok <==> RowReadable(u, row, width) && RowReadable(v, row, width)
    ensures ok ==> dst[..] == old(dst[..start]) + CellRow(u, v, row, width) + old(dst[start + 2 * width..])
  {
    hide Read, RowReadable, CellRow;
    ghost var original := dst[..];
    ghost var done := original[..start];
    var out := start;
    var col := 0;
    NothingToRead(u, row, width);
    NothingToRead(v, row, width);
    NextCell(u, v, row, 0);
    while col < width
      invariant 0 <= col <= width && RowReadable(u, row, col) && RowReadable(v, row, col)
      invariant done == original[..start] + CellRow(u, v, row, col)
      invariant out == |done| && dst[..] == done + original[out..]
    {
      var vSample, uSample := Read(v, row, col), Read(u, row, col);
      RowGrows(u, row, col, width);
      RowGrows(v, row, col, width);
      if vSample.None? {
        return false;
      }
      dst[out] := vSample.value;
      if uSample.None? {
        return false;
      }
      dst[out + 1] := uSample.value;
      PutTwo(done, vSample.value, uSample.value, original);
      TwoMore(original[..start], CellRow(u, v, row, col), vSample.value, uSample.value);
      done := done + [vSample.value, uSample.value];
      NextCell(u, v, row, col);
      out := out + 2;
      col := col + 1;
    }
    ok := true;
  }

  method CopyChromaNv21(u: Plane, v: Plane, width: nat, height: nat, dst: array<Byte>, offset: nat) returns (ok: bool)
    requires offset + |CellBytes(u, v, width, height)| <= dst.Length
    modifies dst
    ensures ok <==> PlaneReadable(u, width, height) && PlaneReadable(v, width, height)
    ensures ok ==> dst[..] == old(dst[..offset]) + CellBytes(u, v, width, height)
                              + old(dst[offset + |CellBytes(u, v, width, height)|..])
  {
    hide RowReadable, PlaneReadable, CellRow, CellBytes;
    ghost var original := dst[..];
    var out := offset;
    var row := 0;
    NothingToRead(u, 0, width);
    NothingToRead(v, 0, width);
    NextCells(u, v, width, 0);
    while row < height
      invariant 0 <= row <= height && PlaneReadable(u, width, row) && PlaneReadable(v, width, row)
      invariant out == offset + |CellBytes(u, v, width, row)| <= dst.Length
      invariant dst[..] == original[..offset] + CellBytes(u, v, width, row) + original[out..]
    {
      CellsFit(u, v, width, row + 1, height);
      NextCells(u, v, width, row);
      PlaneGrows(u, width, row, height);
      PlaneGrows(v, width, row, height);
      AddLine(original[..offset], CellBytes(u, v, width, row), CellRow(u, v, row, width), original);
      var copied := CopyCells(u, v, row, width, dst, out);
      if !copied {
        return false;
      }
      out := out + 2 * width;
      row := row + 1;
    }
    ok := true;
  }

  /** What the source computes for the size of the output, in 32 bits. */
  function OutputSize(width: nat, height: nat): int {
    var n := Int32(width * height * 3);
    if n >= 0 then n / 2 else -(-n / 2)
  }

  /** A size that wraps is negative or too small for the luma. */
  lemma WrappedSize(width: nat, height: nat)
    requires width < 0x8000_0000 && height < 0x8000_0000
    ensures if width * height * 3 < 0x8000_0000 then OutputSize(width, height) == width * height * 3 / 2
            else OutputSize(width, height) < width * height
  {
    var n := width * height;
    assert Int32(n * 3) <= n * 3;
    if n * 3 >= 0x8000_0000 && n * 3 < 0x1_8000_0000 {
      assert Int32(n * 3) == n * 3 - 0x1_0000_0000;
    } else if n * 3 >= 0x1_8000_0000 {
      assert Int32(n * 3) < 0x8000_0000;
    }
  }

  predicate SizeFits(width: nat, height: nat) {
    width * height * 3 < 0x8000_0000
  }

  /** The size in terms of what the copies write. */
  lemma OutputParts(y: Plane, u: Plane, v: Plane, width: nat, height: nat)
    requires width < 0x8000_0000 && height < 0x8000_0000
    ensures height * width == |PlaneBytes(y, width, height)|
    ensures SizeFits(width, height) ==>
              OutputSize(width, height) ==
                |PlaneBytes(y, width, height)| + |CellBytes(u, v, width / 2, height / 2)| + Unwritten(width, height)
    ensures !SizeFits(width, height) ==> OutputSize(width, height) < height * width
    ensures Unwritten(width, height) >= 0
  {
    hide OutputSize, PlaneBytes, CellBytes;
    WrappedSize(width, height);
    UnwrittenCount(width, height);
    PlaneSize(y, width, height);
    CellSize(u, v, width / 2, height / 2);
    Commute(width, height);
  }

  lemma Commute(a: nat, b: nat)
    ensures a * b == b * a
  {}

  /** None is an exception: a negative size, or a position outside a buffer or the output. */
  method Yuv420ToNv21(y: Plane, u: Plane, v: Plane, width: nat, height: nat) returns (r: Option<seq<Byte>>)
    requires width < 0x8000_0000 && height < 0x8000_0000
    ensures r.Some? <==>
              && SizeFits(width, height)
              && PlaneReadable(y, width, height)
              && PlaneReadable(u, width / 2, height / 2) && PlaneReadable(v, width / 2, height / 2)
    ensures r.Some? ==> r.value == Nv21Bytes(y, u, v, width, height)
  {
    hide PlaneReadable, OutputSize, Unwritten, SizeFits, PlaneBytes, CellBytes;
    OutputParts(y, u, v, width, height);
    var luma, size := height * width, OutputSize(width, height);
    if size < luma {
      // too small for the luma copy, if it can be allocated at all
      return None;
    }
    ZerosRemain(PlaneBytes(y, width, height), CellBytes(u, v, width / 2, height / 2), size);
    var output := new Byte[size](_ => 0);
    assert output[..] == seq(size, _ => 0);
    var ok := CopyPlane(y, width, height, output, 0);
    if !ok {
      return None;
    }
    ok := CopyChromaNv21(u, v, width / 2, height / 2, output, luma);
    if !ok {
      return None;
    }
    r := Some(output[..]);
  }

  // ---------------------------------------------------------------- where each byte goes

  /** What an output byte shows. */
  datatype Origin = Luma(row: nat, col: nat) | VCell(row: nat, col: nat) | UCell(row: nat, col: nat)

  predicate Exists(o: Origin, width: nat, height: nat) {
    match o
    case Luma(r, c) => r < height && c < width
    case VCell(r, c) => r < height / 2 && c < width / 2
    case UCell(r, c) => r < height / 2 && c < width / 2
  }

  /** Row-major index. */
  function Flat(row: nat, col: nat, width: nat): nat {
    row * width + col
  }

  function Position(o: Origin, width: nat, height: nat): nat {
    match o
    case Luma(r, c) => Flat(r, c, width)
    case VCell(r, c) => height * width + 2 * Flat(r, c, width / 2)
    case UCell(r, c) => height * width + 2 * Flat(r, c, width / 2) + 1
  }

  function Shown(o: Origin, y: Plane, u: Plane, v: Plane): Byte {
    match o
    case Luma(r, c) => At(y, r, c)
    case VCell(r, c) => At(v, r, c)
    case UCell(r, c) => At(u, r, c)
  }

  lemma {:induction false} RowAt(p: Plane, row: nat, width: nat, col: nat)
    requires col < width
    ensures RowBytes(p, row, width)[col] == At(p, row, col)
  {
    if col < width - 1 {
      RowAt(p, row, width - 1, col);
    }
  }

  lemma {:induction false} PlaneAt(p: Plane, width: nat, height: nat, row: nat, col: nat)
    requires row < height && col < width
    ensures |PlaneBytes(p, width, row)| + col < |PlaneBytes(p, width, height)|
    ensures PlaneBytes(p, width, height)[|PlaneBytes(p, width, row)| + col] == At(p, row, col)
  {
    if row < height - 1 {
      PlaneAt(p, width, height - 1, row, col);
    } else {
      RowAt(p, row, width, col);
    }
  }

  lemma {:induction false} CellRowAt(u: Plane, v: Plane, row: nat, width: nat, col: nat)
    requires col < width
    ensures CellRow(u, v, row, width)[2 * col] == At(v, row, col)
    ensures CellRow(u, v, row, width)[2 * col + 1] == At(u, row, col)
  {
    if col < width - 1 {
      CellRowAt(u, v, row, width - 1, col);
    }
  }

  lemma {:induction false} CellAt(u: Plane, v: Plane, width: nat, height: nat, row: nat, col: nat)
    requires row < height && col < width
    ensures |CellBytes(u, v, width, row)| + 2 * col + 1 < |CellBytes(u, v, width, height)|
    ensures CellBytes(u, v, width, height)[|CellBytes(u, v, width, row)| + 2 * col] == At(v, row, col)
    ensures CellBytes(u, v, width, height)[|CellBytes(u, v, width, row)| + 2 * col + 1] == At(u, row, col)
  {
    hide At, CellRow;
    var above, line := CellBytes(u, v, width, height - 1), CellRow(u, v, height - 1, width);
    if row < height - 1 {
      CellAt(u, v, width, height - 1, row, col);
      InHead(above, line, |CellBytes(u, v, width, row)| + 2 * col);
    } else {
      CellRowAt(u, v, row, width, col);
      InTail(above, line, 2 * col);
    }
  }

  lemma InHead(head: seq<Byte>, tail: seq<Byte>, k: nat)
    requires k + 1 < |head|
    ensures k + 1 < |head + tail| && (head + tail)[k] == head[k] && (head + tail)[k + 1] == head[k + 1]
  {}

  lemma InTail(head: seq<Byte>, tail: seq<Byte>, k: nat)
    requires k + 1 < |tail|
    ensures |head| + k + 1 < |head + tail|
    ensures (head + tail)[|head| + k] == tail[k] && (head + tail)[|head| + k + 1] == tail[k + 1]
  {}

  /** Luma lies at row * width + col and each chroma cell as V, U after the luma. */
  lemma {:induction false} Layout(y: Plane, u: Plane, v: Plane, width: nat, height: nat, o: Origin)
    requires Exists(o, width, height)
    ensures Position(o, width, height) < |Written(y, u, v, width, height)|
    ensures Nv21Bytes(y, u, v, width, height)[Position(o, width, height)] == Shown(o, y, u, v)
  {
    hide At, Unwritten, PlaneBytes, CellBytes;
    PlaneSize(y, width, height);
    var luma, cells := PlaneBytes(y, width, height), CellBytes(u, v, width / 2, height / 2);
    if o.Luma? {
      PlaneSize(y, width, o.row);
      PlaneAt(y, width, height, o.row, o.col);
      assert (luma + cells)[Position(o, width, height)] == luma[Position(o, width, height)];
    } else {
      CellSize(u, v, width / 2, o.row);
      CellAt(u, v, width / 2, height / 2, o.row, o.col);
      InTail(luma, cells, |CellBytes(u, v, width / 2, o.row)| + 2 * o.col);
    }
  }

  lemma {:induction false} RowsApart(width: nat, row: nat, below: nat)
    requires row < below
    ensures row * width + width <= below * width
  {
    if row + 1 < below {
      RowsApart(width, row, below - 1);
    }
    assert below * width == (below - 1) * width + width;
  }

  lemma FlatUnique(width: nat, row: nat, col: nat, row': nat, col': nat)
    requires col < width && col' < width && Flat(row, col, width) == Flat(row', col', width)
    ensures row == row' && col == col'
  {
    if row < row' {
      RowsApart(width, row, row');
    } else if row' < row {
      RowsApart(width, row', row);
    }
  }

  lemma FlatBelow(width: nat, height: nat, row: nat, col: nat)
    requires row < height && col < width
    ensures Flat(row, col, width) < height * width
  {
    RowsApart(width, row, height);
  }

  /** Two different samples never share a position. */
  lemma PositionsDiffer(width: nat, height: nat, o: Origin, o': Origin)
    requires Exists(o, width, height) && Exists(o', width, height)
    requires Position(o, width, height) == Position(o', width, height)
    ensures o == o'
  {
    hide Flat;
    if o.Luma? {
      FlatBelow(width, height, o.row, o.col);
    }
    if o'.Luma? {
      FlatBelow(width, height, o'.row, o'.col);
    }
    if o.Luma? && o'.Luma? {
      FlatUnique(width, o.row, o.col, o'.row, o'.col);
    } else if !o.Luma? && !o'.Luma? {
      FlatUnique(width / 2, o.row, o.col, o'.row, o'.col);
    }
  }

  lemma Divides(k: nat, width: nat, height: nat) returns (row: nat, col: nat)
    requires k < height * width
    ensures row < height && col < width && Flat(row, col, width) == k
  {
    row, col := k / width, k % width;
    assert row * width + col == k;
    if height < row {
      RowsApart(width, height, row);
    }
  }

  /** Every written position shows some sample. */
  lemma PositionsReached(y: Plane, u: Plane, v: Plane, width: nat, height: nat, k: nat) returns (o: Origin)
    requires k < |Written(y, u, v, width, height)|
    ensures Exists(o, width, height) && Position(o, width, height) == k
  {
    PlaneSize(y, width, height);
    CellSize(u, v, width / 2, height / 2);
    if k < height * width {
      var row, col := Divides(k, width, height);
      o := Luma(row, col);
    } else {
      var j := k - height * width;
      var row, col := Divides(j / 2, width / 2, height / 2);
      o := if j % 2 == 0 then VCell(row, col) else UCell(row, col);
    }
  }

  /** The copies fill the whole output if and only if both dimensions are even, or there
      is no pixel, or just one. */
  lemma WholeOutputWritten(y: Plane, u: Plane, v: Plane, width: nat, height: nat)
    ensures |Written(y, u, v, width, height)| <= width * height * 3 / 2
    ensures |Written(y, u, v, width, height)| == width * height * 3 / 2
            <==> (width % 2 == 0 && height % 2 == 0) || width == 0 || height == 0 || (width == 1 && height == 1)
  {
    PlaneSize(y, width, height);
    CellSize(u, v, width / 2, height / 2);
    UnwrittenCount(width, height);
    ByParity(width / 2, height % 2);
    ByParity(height / 2, width % 2);
  }

  lemma ByParity(half: nat, odd: nat)
    requires odd <= 1
    ensures half * odd == if odd == 0 then 0 else half
  {}

  /** Inside a buffer the 32-bit index arithmetic does not wrap. */
  lemma IndexIsExact(p: Plane, row: nat, col: nat)
    requires 0 <= p.base + row * p.rowStride + col * p.pixelStride < |p.buffer| <= 0x7fff_ffff
    ensures Readable(p, row, col) && At(p, row, col) == p.buffer[p.base + row * p.rowStride + col * p.pixelStride]
  {}
}
