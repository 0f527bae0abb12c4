/** decode_pixels and the bounds around it. */
module PixelDecoder {
  import opened Prelude
  import opened Pixels

  const MAX_CAPTURE_DIMENSION := 16_384
  const MAX_CAPTURE_PIXELS := 64_000_000

  function BytesPerPixel(depth: nat): nat { if depth <= 8 then 1 else if depth <= 16 then 2 else 4 }

  predicate CaptureDimensions(width: nat, height: nat) {
    0 < width <= MAX_CAPTURE_DIMENSION && 0 < height <= MAX_CAPTURE_DIMENSION && width * height <= MAX_CAPTURE_PIXELS
  }

  /** What the types of the original guarantee. */
  predicate Sized(m: Image) {
    && |m.data| < USIZE_LIMIT && m.width < USIZE_LIMIT && m.height < USIZE_LIMIT && m.stride < USIZE_LIMIT
    && (m.bytesPerPixel == 1 || m.bytesPerPixel == 2 || m.bytesPerPixel == 4)
  }

  // ---------------------------------------------------------------- the decoded image

  function RowStart(m: Image, row: nat): nat { row * m.stride }

  function ColumnStart(m: Image, column: nat): nat { column * m.bytesPerPixel }

  function Offset(m: Image, row: nat, column: nat): nat { RowStart(m, row) + ColumnStart(m, column) }

  /** How many pixels stand before a row of the output. */
  function Before(m: Image, row: nat): nat { row * m.width }

  lemma BeforeNext(m: Image, row: nat)
    ensures Before(m, 0) == 0 && Before(m, row + 1) == Before(m, row) + m.width
  {
  }

  lemma ColumnNext(m: Image, column: nat)
    ensures ColumnStart(m, 0) == 0 && ColumnStart(m, column + 1) == ColumnStart(m, column) + m.bytesPerPixel
    ensures column < m.width ==> ColumnStart(m, column + 1) <= ColumnStart(m, m.width)
  {
    if column < m.width { MulBelow(column + 1, m.width, m.bytesPerPixel); }
  }

  lemma RowBelow(m: Image, row: nat)
    requires row < m.height
    ensures RowStart(m, row) <= RowStart(m, m.height - 1)
  {
    MulBelow(row, m.height - 1, m.stride);
  }

  /** The word of a pixel; 0 outside the data. */
  function RawAt(m: Image, row: nat, column: nat): nat {
    var o := Offset(m, row, column);
    if o + m.bytesPerPixel <= |m.data| then WordOf(m.data[o..o + m.bytesPerPixel], m.order) else 0
  }

  function Quad(m: Image, row: nat, column: nat): (q: seq<Byte>)
    ensures |q| == 4
  {
    var raw := RawAt(m, row, column);
    [ScaleComponent(raw, m.visual.red), ScaleComponent(raw, m.visual.green), ScaleComponent(raw, m.visual.blue), 255]
  }

  /** The first `n` pixels of a row. */
  function Row(m: Image, row: nat, n: nat): seq<Byte> { if n == 0 then [] else Row(m, row, n - 1) + Quad(m, row, n - 1) }

  /** The first `n` rows. */
  function Rows(m: Image, n: nat): seq<Byte> { if n == 0 then [] else Rows(m, n - 1) + Row(m, n - 1, m.width) }

  lemma {:induction false} RowAt(m: Image, row: nat, n: nat, column: nat)
    ensures |Row(m, row, n)| == 4 * n
    ensures column < n ==> Row(m, row, n)[4 * column..4 * column + 4] == Quad(m, row, column)
  {
    hide Quad;
    if n > 0 {
      RowAt(m, row, n - 1, column);
      var front, quad := Row(m, row, n - 1), Quad(m, row, n - 1);
      if column < n - 1 { assert (front + quad)[4 * column..4 * column + 4] == front[4 * column..4 * column + 4]; }
      else if column == n - 1 { assert (front + quad)[4 * column..4 * column + 4] == quad; }
    }
  }

  /** The quadruple of row and column stands at 4 * (row * width + column). */
  lemma {:induction false} PixelAt(m: Image, n: nat, row: nat, column: nat)
    requires column < m.width
    ensures |Rows(m, n)| == 4 * Before(m, n)
    ensures row < n ==>
              var at := 4 * (Before(m, row) + column);
              at + 4 <= |Rows(m, n)| && Rows(m, n)[at..at + 4] == Quad(m, row, column)
  {
    hide Quad, Row, Before;
    BeforeNext(m, n);
    if n > 0 {
      BeforeNext(m, n - 1);
      PixelAt(m, n - 1, row, column);
      RowAt(m, n - 1, m.width, column);
      var front, last := Rows(m, n - 1), Row(m, n - 1, m.width);
      var at := 4 * (Before(m, row) + column);
      if row < n - 1 { assert (front + last)[at..at + 4] == front[at..at + 4]; }
      else if row == n - 1 { assert (front + last)[at..at + 4] == last[4 * column..4 * column + 4]; }
    }
  }

  lemma {:induction false} RowsLength(m: Image, n: nat)
    ensures |Rows(m, n)| == 4 * Before(m, n)
  {
    hide Row, Before;
    BeforeNext(m, n);
    if n > 0 {
      BeforeNext(m, n - 1);
      RowsLength(m, n - 1);
      RowAt(m, n - 1, m.width, 0);
    }
  }

  // ---------------------------------------------------------------- decode_pixels

  predicate Masked(v: Visual) { v.red != 0 && v.green != 0 && v.blue != 0 }

  /** Three masks, an output within the limit, and data that reaches the end of the last row. */
  predicate Decodable(m: Image) {
    && Masked(m.visual) && 4 * Before(m, m.height) <= MAX_CAPTURE_BYTES
    && (m.height > 0 ==> RowStart(m, m.height - 1) < USIZE_LIMIT)
    && (m.height > 0 && m.width > 0 ==> RowStart(m, m.height - 1) + ColumnStart(m, m.width) <= |m.data|)
  }

  /** The inner loop: the pixels of one row, pushed onto the buffer. */
  method DecodeRow(m: Image, row: nat, rgba: seq<Byte>) returns (out: Option<seq<Byte>>)
    requires Sized(m) && row < m.height && RowStart(m, row) < USIZE_LIMIT
    ensures out.Some? <==> (m.width > 0 ==> RowStart(m, row) + ColumnStart(m, m.width) <= |m.data|)
    ensures out.Some? ==> out.value == rgba + Row(m, row, m.width)
  {
    hide Quad, Row, ScaleComponent, RowStart, ColumnStart;
    var rowStart := RowStart(m, row);
    var line := rgba;
    NoColumns(m, row, rgba);
    ColumnNext(m, 0);
    var column := 0;
    while column < m.width
      invariant 0 <= column <= m.width && line == rgba + Row(m, row, column)
      invariant column > 0 ==> rowStart + ColumnStart(m, column) <= |m.data|
    {
      ColumnNext(m, column);
      var offset := rowStart + ColumnStart(m, column);
      var end := offset + m.bytesPerPixel;
      if ColumnStart(m, column) >= USIZE_LIMIT || offset >= USIZE_LIMIT || end >= USIZE_LIMIT || end > |m.data| { return None; }
      var raw := ReadWord(m.data[offset..end], m.order);
      ghost var before := line;
      line := line + [ScaleComponent(raw, m.visual.red)];
      line := line + [ScaleComponent(raw, m.visual.green)];
      line := line + [ScaleComponent(raw, m.visual.blue)];
      line := line + [255];
      OneMorePixel(m, row, column, raw, rgba, before, line);
      column := column + 1;
    }
    return Some(line);
  }

  /**
   Decoding succeeds exactly on decodable images, never reading outside the data; the output then has
   4 * width * height bytes, row by row, each pixel the scaled channels of its word and full opacity.
   */
  method DecodePixels(m: Image) returns (out: Option<seq<Byte>>)
    requires Sized(m)
    ensures out.Some? <==> Decodable(m)
    ensures out.Some? ==> out.value == Rows(m, m.height) && |out.value| == 4 * (m.height * m.width)
  {
    hide Row, Rows, RowStart, ColumnStart;
    if m.visual.red == 0 || m.visual.green == 0 || m.visual.blue == 0 { return None; }
    var pixels := Before(m, m.height);
    if pixels >= USIZE_LIMIT || pixels * 4 >= USIZE_LIMIT || pixels * 4 > MAX_CAPTURE_BYTES { return None; }
    var rgba: seq<Byte> := [];
    NoRows(m);
    var row := 0;
    while row < m.height
      invariant 0 <= row <= m.height && rgba == Rows(m, row)
      invariant row > 0 ==> RowStart(m, row - 1) < USIZE_LIMIT
      invariant row > 0 && m.width > 0 ==> RowStart(m, row - 1) + ColumnStart(m, m.width) <= |m.data|
    {
      RowBelow(m, row);
      if RowStart(m, row) >= USIZE_LIMIT { return None; }
      var line := DecodeRow(m, row, rgba);
      if line.None? { return None; }
      rgba := line.value;
      OneMoreRow(m, row);
      row := row + 1;
    }
    RowsLength(m, m.height);
    return Some(rgba);
  }

  lemma NoRows(m: Image)
    ensures Rows(m, 0) == []
  {
  }

  lemma NoColumns(m: Image, row: nat, before: seq<Byte>)
    ensures before + Row(m, row, 0) == before
  {
  }

  lemma OneMoreRow(m: Image, row: nat)
    ensures Rows(m, row) + Row(m, row, m.width) == Rows(m, row + 1)
  {
  }

  lemma OneMorePixel(m: Image, row: nat, column: nat, raw: nat, before: seq<Byte>, line: seq<Byte>, rgba: seq<Byte>)
    requires Offset(m, row, column) + m.bytesPerPixel <= |m.data|
    requires raw == WordOf(m.data[Offset(m, row, column)..Offset(m, row, column) + m.bytesPerPixel], m.order)
    requires line == before + Row(m, row, column)
    requires rgba == line + [ScaleComponent(raw, m.visual.red)] + [ScaleComponent(raw, m.visual.green)]
                     + [ScaleComponent(raw, m.visual.blue)] + [255]
    ensures rgba == before + Row(m, row, column + 1)
  {
    hide ScaleComponent, RowStart, ColumnStart;
    assert rgba == line + Quad(m, row, column);
  }

  // ---------------------------------------------------------------- the capture's own bounds

  /** Every depth of an X11 image has a pixel size the decoder can read, of at least its depth in bits up to 32. */
  lemma PixelHoldsDepth(depth: nat)
    ensures var n := BytesPerPixel(depth);
      (n == 1 || n == 2 || n == 4) && (depth <= 32 ==> depth <= 8 * n) && (n > 1 ==> depth > 4 * n)
  {
  }

  /**
   The request's bounds are wider than the decoder's: with a full visual and full rows, an accepted
   size decodes exactly when it has at most 2,097,152 pixels.
   */
  lemma AcceptedDecodesExactlyWhen(m: Image)
    requires Sized(m) && CaptureDimensions(m.width, m.height) && Masked(m.visual)
    requires m.width * m.bytesPerPixel <= m.stride && m.height * m.stride <= |m.data|
    ensures Decodable(m) <==> m.width * m.height <= 2_097_152
  {
    assert m.height * m.stride == (m.height - 1) * m.stride + m.stride;
  }

  /** The gap is real: a 2048 by 1025 capture is accepted and never decodes. */
  lemma AcceptedButTooLarge(m: Image)
    requires m.width == 2048 && m.height == 1025
    ensures CaptureDimensions(m.width, m.height) && !Decodable(m)
  {
  }
}
