/** The LVGL display port for the 128 x 64 SSD1306 OLED (ui/lv_port_disp.c).
    The frame buffer uses the controller's page layout: a byte holds eight
    vertically stacked pixels, bit `y mod 8` of byte `x + (y / 8) * width`.
    Drawing sets or clears single bits, redraw areas are widened to whole
    pages, and a flush sends each page row with its address commands. */
module LvPortDisp {

  /** Display geometry (SSD1306_WIDTH and SSD1306_HEIGHT; ssd1306.h is not
      part of this model). */
  const WIDTH: int := 128
  const HEIGHT: int := 64

  /** Bit `k` of a byte. */
  predicate Bit(b: bv8, k: bv8)
    requires k < 8
  {
    (b >> k) & 1 == 1
  }

  /** The bit number `y % 8` of a row, as the shift amount. */
  function BitOf(y: int): (k: bv8)
    requires y >= 0
    ensures k < 8
  {
    (y % 8) as bv8
  }

  /** Rows share a bit number exactly when they agree modulo 8. */
  lemma BitOfSame(y: int, y2: int)
    requires y >= 0 && y2 >= 0
    ensures BitOf(y) == BitOf(y2) <==> y % 8 == y2 % 8
  {
    var r, r2 := y % 8, y2 % 8;
    assert BitOf(y) == r as bv8 && BitOf(y2) == r2 as bv8;
    if r != r2 {
      assert r as bv8 != r2 as bv8 by {
        assert (r as bv8) as int == r && (r2 as bv8) as int == r2;
      }
    }
  }

  /** The byte `set_px_cb` leaves: bit `k` set when `on`, cleared otherwise. */
  function PixelByte(b: bv8, k: bv8, on: bool): bv8
    requires k < 8
  {
    if on then b | (1 << k) else b & !(1 << k)
  }

  /** Exactly the addressed bit changes, and it becomes the pixel's colour. */
  lemma PixelByteBits(b: bv8, k: bv8, on: bool, j: bv8)
    requires k < 8 && j < 8
    ensures Bit(PixelByte(b, k, on), j) == if j == k then on else Bit(b, j)
  {
  }

  /** Where pixel (x, y) lives in a buffer `bufW` pixels wide. */
  function PixelIndex(bufW: int, x: int, y: int): (i: int)
    requires 0 <= x < bufW && 0 <= y
    ensures i >= 0
  {
    x + (y / 8) * bufW
  }

  /** `a * w` grows by at least `w` per step of `a`. */
  lemma {:induction false} RowsApart(a: int, a2: int, w: int)
    requires 0 <= a < a2 && w > 0
    ensures a2 * w - a * w >= w
    decreases a2 - a
  {
    assert a2 * w == (a2 - 1) * w + w;
    if a2 - 1 > a {
      RowsApart(a, a2 - 1, w);
    }
  }

  /** Distinct pixels of one buffer never share a byte and bit: a byte index
      and bit number determine the pixel. */
  lemma PixelAddressesDistinct(bufW: int, x: int, y: int, x2: int, y2: int)
    requires 0 <= x < bufW && 0 <= y && 0 <= x2 < bufW && 0 <= y2
    requires PixelIndex(bufW, x, y) == PixelIndex(bufW, x2, y2) && y % 8 == y2 % 8
    ensures x == x2 && y == y2
  {
    var a, a2 := y / 8, y2 / 8;
    if a < a2 {
      RowsApart(a, a2, bufW);
    } else if a2 < a {
      RowsApart(a2, a, bufW);
    }
    assert a == a2 && x == x2;
    assert y == 8 * a + y % 8 && y2 == 8 * a2 + y2 % 8;
  }

  /** Whether pixel (x, y) is lit in `buf`. */
  predicate PixelOn(buf: seq<bv8>, bufW: int, x: int, y: int)
    requires 0 <= x < bufW && 0 <= y && PixelIndex(bufW, x, y) < |buf|
  {
    Bit(buf[PixelIndex(bufW, x, y)], BitOf(y))
  }

  /** `set_px_cb`: colour 1 lights pixel (x, y), any other colour darkens it. */
  method SetPx(buf: array<bv8>, bufW: int, x: int, y: int, color: int)
    requires 0 <= x < bufW && 0 <= y && PixelIndex(bufW, x, y) < buf.Length
    modifies buf
    ensures buf[..] == old(buf[..])[PixelIndex(bufW, x, y) := PixelByte(old(buf[PixelIndex(bufW, x, y)]), BitOf(y), color == 1)]
  {
    var i := x + (y / 8) * bufW;
    buf[i] := PixelByte(buf[i], BitOf(y), color == 1);
  }

  /** After `set_px_cb` the pixel shows the colour and every other pixel of
      the buffer looks as before. */
  lemma SetPxEffect(buf: seq<bv8>, bufW: int, x: int, y: int, on: bool, x2: int, y2: int)
    requires 0 <= x < bufW && 0 <= y && PixelIndex(bufW, x, y) < |buf|
    requires 0 <= x2 < bufW && 0 <= y2 && PixelIndex(bufW, x2, y2) < |buf|
    ensures var i := PixelIndex(bufW, x, y);
            var after := buf[i := PixelByte(buf[i], BitOf(y), on)];
            PixelOn(after, bufW, x2, y2) == if x2 == x && y2 == y then on else PixelOn(buf, bufW, x2, y2)
  {
    var i := PixelIndex(bufW, x, y);
    var i2 := PixelIndex(bufW, x2, y2);
    PixelByteBits(buf[i], BitOf(y), on, BitOf(y2));
    BitOfSame(y, y2);
    if i == i2 && y % 8 == y2 % 8 {
      PixelAddressesDistinct(bufW, x, y, x2, y2);
    }
  }

  /** `rounder_cb`'s `y & ~7` and `(y & ~7) + 7` on lv_coord_t. */
  function PageTop(y: int): int { y - y % 8 }
  function PageBottom(y: int): int { y - y % 8 + 7 }

  /** The rounded rows start and end a page, contain the original row, stay
      in int16 range, and rounding twice changes nothing more. */
  lemma RoundingProperties(y: int)
    requires -32768 <= y <= 32767
    ensures PageTop(y) % 8 == 0 && PageTop(y) <= y < PageTop(y) + 8
    ensures PageBottom(y) % 8 == 7 && PageBottom(y) - 8 < y <= PageBottom(y)
    ensures -32768 <= PageTop(y) && PageBottom(y) <= 32767
    ensures PageTop(PageTop(y)) == PageTop(y) && PageBottom(PageBottom(y)) == PageBottom(y)
  {
    assert PageBottom(y) % 8 == 7;
  }

  /** LVGL's `lv_area_t`, which `rounder_cb` rewrites in place. */
  class Area {
    var x1: int
    var y1: int
    var x2: int
    var y2: int

    constructor (x1: int, y1: int, x2: int, y2: int)
      ensures this.x1 == x1 && this.y1 == y1 && this.x2 == x2 && this.y2 == y2
    {
      this.x1 := x1;
      this.y1 := y1;
      this.x2 := x2;
      this.y2 := y2;
    }
  }

  /** `rounder_cb`: widen the area to whole pages; x is untouched. */
  method Rounder(area: Area)
    modifies area
    ensures area.y1 == PageTop(old(area.y1)) && area.y2 == PageBottom(old(area.y2))
    ensures area.x1 == old(area.x1) && area.x2 == old(area.x2)
  {
    area.y1 := area.y1 - area.y1 % 8;
    area.y2 := area.y2 - area.y2 % 8 + 7;
  }

  /** One transfer on the display bus. */
  datatype Xfer = Command(byte: int) | Data(bytes: seq<bv8>)

  /** The four transfers for one page row: page address, low and high
      column nibbles of `x1 + 2` (the panel's first two columns are not
      shown), and the row's pixels. */
  function RowXfers(row: int, x1: int, data: seq<bv8>): seq<Xfer>
  {
    [Command(0xB0 + row), Command((x1 + 2) % 16), Command(0x10 + ((x1 + 2) / 16) % 16), Data(data)]
  }

  /** `data` holds at least `rows` slices of `width` bytes. */
  predicate Enough(rows: int, width: nat, len: int)
    decreases rows
  {
    rows <= 0 || (width <= len && Enough(rows - 1, width, len - width))
  }

  lemma {:induction false} EnoughFromProduct(rows: int, width: nat, len: int)
    requires rows * width <= len
    ensures Enough(rows, width, len)
    decreases rows
  {
    if rows > 0 {
      assert rows * width == (rows - 1) * width + width;
      assert (rows - 1) * width >= 0;
      EnoughFromProduct(rows - 1, width, len - width);
    }
  }

  /** Transfers for page rows `row` to `row2`, each taking the next `width`
      bytes of `data`. */
  function FlushFrom(row: int, row2: int, x1: int, width: nat, data: seq<bv8>): (xs: seq<Xfer>)
    requires Enough(row2 + 1 - row, width, |data|)
    decreases row2 + 1 - row
  {
    if row > row2 then []
    else RowXfers(row, x1, data[..width]) + FlushFrom(row + 1, row2, x1, width, data[width..])
  }

  /** One unfolding of a flush that starts `offset` bytes into the buffer. */
  lemma FlushStep(row: int, row2: int, x1: int, width: nat, data: seq<bv8>, offset: int)
    requires row <= row2 && 0 <= offset <= |data| && Enough(row2 + 1 - row, width, |data| - offset)
    ensures offset + width <= |data| && Enough(row2 - row, width, |data| - (offset + width))
    ensures FlushFrom(row, row2, x1, width, data[offset..])
            == RowXfers(row, x1, data[offset .. offset + width]) + FlushFrom(row + 1, row2, x1, width, data[offset + width..])
  {
    assert data[offset..][width..] == data[offset + width..];
    assert data[offset..][..width] == data[offset .. offset + width];
  }

  /** The data carried by a run of transfers, in order. */
  function Payload(xs: seq<Xfer>): seq<bv8>
  {
    if xs == [] then [] else (if xs[0].Data? then xs[0].bytes else []) + Payload(xs[1..])
  }

  lemma {:induction false} PayloadAppend(xs: seq<Xfer>, ys: seq<Xfer>)
    ensures Payload(xs + ys) == Payload(xs) + Payload(ys)
  {
    if xs != [] {
      assert (xs + ys)[0] == xs[0];
      assert (xs + ys)[1..] == xs[1..] + ys;
      PayloadAppend(xs[1..], ys);
    } else {
      assert xs + ys == ys;
    }
  }

  /** A row's transfers carry exactly its data. */
  lemma PayloadRow(row: int, x1: int, data: seq<bv8>)
    ensures Payload(RowXfers(row, x1, data)) == data
  {
    var r := RowXfers(row, x1, data);
    assert r[1..][1..][1..][1..] == [];
    assert Payload(r[1..][1..][1..]) == data + Payload([]);
    assert Payload(r[1..][1..]) == Payload(r[1..][1..][1..]);
    assert Payload(r[1..]) == Payload(r[1..][1..]);
  }

  /** A flush of page rows `row` .. `row2` sends four transfers per row. */
  lemma {:induction false} FlushLength(row: int, row2: int, x1: int, width: nat, data: seq<bv8>)
    requires Enough(row2 + 1 - row, width, |data|)
    ensures |FlushFrom(row, row2, x1, width, data)| == 4 * (if row > row2 then 0 else row2 + 1 - row)
    decreases row2 + 1 - row
  {
    if row <= row2 {
      FlushLength(row + 1, row2, x1, width, data[width..]);
    }
  }

  /** The number of page rows from `row` to `row2`. */
  function Rows(row: int, row2: int): nat
  {
    if row > row2 then 0 else row2 + 1 - row
  }

  /** The data slices of a flush are the first `rows * width` bytes of the
      buffer, each exactly once and in order. */
  lemma FlushPayload(row: int, row2: int, x1: int, width: nat, data: seq<bv8>)
    requires Enough(row2 + 1 - row, width, |data|)
    ensures var p := Payload(FlushFrom(row, row2, x1, width, data));
            |p| == Rows(row, row2) * width && p <= data
  {
    FlushPayloadLength(row, row2, x1, width, data);
    FlushPayloadPrefix(row, row2, x1, width, data);
  }

  /** The payload of a flush and that of its first row followed by the rest. */
  lemma FlushPayloadSplit(row: int, row2: int, x1: int, width: nat, data: seq<bv8>)
    requires row <= row2 && Enough(row2 + 1 - row, width, |data|)
    ensures width <= |data| && Enough(row2 - row, width, |data| - width)
    ensures Payload(FlushFrom(row, row2, x1, width, data))
            == data[..width] + Payload(FlushFrom(row + 1, row2, x1, width, data[width..]))
  {
    PayloadAppend(RowXfers(row, x1, data[..width]), FlushFrom(row + 1, row2, x1, width, data[width..]));
    PayloadRow(row, x1, data[..width]);
  }

  lemma {:induction false} FlushPayloadLength(row: int, row2: int, x1: int, width: nat, data: seq<bv8>)
    requires Enough(row2 + 1 - row, width, |data|)
    ensures |Payload(FlushFrom(row, row2, x1, width, data))| == Rows(row, row2) * width
    decreases row2 + 1 - row
  {
    if row <= row2 {
      FlushPayloadSplit(row, row2, x1, width, data);
      FlushPayloadLength(row + 1, row2, x1, width, data[width..]);
      var n := Rows(row + 1, row2);
      assert Rows(row, row2) == n + 1;
      assert (n + 1) * width == n * width + width;
    }
  }

  lemma {:induction false} FlushPayloadPrefix(row: int, row2: int, x1: int, width: nat, data: seq<bv8>)
    requires Enough(row2 + 1 - row, width, |data|)
    ensures Payload(FlushFrom(row, row2, x1, width, data)) <= data
    decreases row2 + 1 - row
  {
    if row <= row2 {
      FlushPayloadSplit(row, row2, x1, width, data);
      FlushPayloadPrefix(row + 1, row2, x1, width, data[width..]);
      var q := Payload(FlushFrom(row + 1, row2, x1, width, data[width..]));
      assert data[..width] + q <= data by {
        assert data == data[..width] + data[width..];
      }
    }
  }

  /** The column commands address column `x1 + 2`: the two nibbles put back
      together give it, for any column the controller has. */
  lemma ColumnAddress(x1: int)
    requires 0 <= x1 + 2 < 256
    ensures var xs := RowXfers(0, x1, []);
            xs[1].byte + 16 * (xs[2].byte - 0x10) == x1 + 2 && 0 <= xs[1].byte < 16 && 0x10 <= xs[2].byte < 0x20
  {
  }

  /** The display driver's state: the pause flag set while another screen
      owner streams frames, the transfers sent so far and the number of
      flush-ready signals given to LVGL. */
  class Display {
    var pauseDrawing: int
    var bus: seq<Xfer>
    var flushReady: nat

    constructor ()
      ensures pauseDrawing == 0 && bus == [] && flushReady == 0
    {
      pauseDrawing := 0;
      bus := [];
      flushReady := 0;
    }

    /** `disp_flush` for an area LVGL has already widened to pages and
        clipped to the screen: unless drawing is paused, each page row from
        `y1 >> 3` to `y2 >> 3` goes out with its address commands and the
        next `x2 - x1 + 1` bytes of the buffer. Flush-ready is signalled
        either way. */
    method Flush(area: Area, buf: array<bv8>)
      requires 0 <= area.x1 <= area.x2 < WIDTH && 0 <= area.y1 <= area.y2 < HEIGHT
      requires (area.y2 / 8 + 1 - area.y1 / 8) * (area.x2 - area.x1 + 1) <= buf.Length
      modifies this
      ensures flushReady == old(flushReady) + 1 && pauseDrawing == old(pauseDrawing)
      ensures pauseDrawing != 0 ==> bus == old(bus)
      ensures pauseDrawing == 0 ==> Enough(area.y2 / 8 + 1 - area.y1 / 8, area.x2 - area.x1 + 1, buf.Length)
      ensures pauseDrawing == 0 ==>
                bus == old(bus) + FlushFrom(area.y1 / 8, area.y2 / 8, area.x1, area.x2 - area.x1 + 1, buf[..])
    {
      if pauseDrawing == 0 {
        EnoughFromProduct(area.y2 / 8 + 1 - area.y1 / 8, area.x2 - area.x1 + 1, buf.Length);
        SendRows(area.y1 / 8, area.y2 / 8, area.x1, area.x2 - area.x1 + 1, buf);
      }
      flushReady := flushReady + 1;
    }

    /** The row loop of `disp_flush`: page rows `row1` .. `row2`, each with
        its three address commands and the next `width` bytes. */
    method SendRows(row1: int, row2: int, x1: int, width: nat, buf: array<bv8>)
      requires Enough(row2 + 1 - row1, width, buf.Length)
      modifies this`bus
      ensures bus == old(bus) + FlushFrom(row1, row2, x1, width, buf[..])
    {
      var offset := 0;
      var row := row1;
      while row <= row2
        invariant row1 <= row || row2 < row1
        invariant 0 <= offset <= buf.Length
        invariant Enough(row2 + 1 - row, width, buf.Length - offset)
        invariant old(bus) + FlushFrom(row1, row2, x1, width, buf[..])
                  == bus + FlushFrom(row, row2, x1, width, buf[offset..])
        decreases row2 + 1 - row
      {
        var col := x1 + 2;
        FlushStep(row, row2, x1, width, buf[..], offset);
        ghost var before := bus;
        ghost var xs := RowXfers(row, x1, buf[offset .. offset + width]);
        ghost var rest := FlushFrom(row + 1, row2, x1, width, buf[offset + width..]);
        bus := bus + [Command(0xB0 + row), Command(col % 16), Command(0x10 + (col / 16) % 16),
                      Data(buf[offset .. offset + width])];
        assert bus == before + xs;
        assert before + (xs + rest) == bus + rest;
        offset := offset + width;
        row := row + 1;
      }
      assert FlushFrom(row, row2, x1, width, buf[offset..]) == [];
    }
  }
}
