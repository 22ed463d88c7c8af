/**
 The driver of the 0.85-inch 128x128 panel. Its controller RAM is addressed with a
 2-column and 1-row offset: `SetWindows` shifts both column bounds by 2 and both row
 bounds by 1. Every operation is specified by the bus events it appends.
 */
module Lcd0inch85Driver {
  import opened Wrappers
  import opened Sequences
  import opened LcdBus
  import opened Rgb565
  import opened DcsWindow

  const Width: nat := 128
  const Height: nat := 128
  /** The column offset `SetWindows` adds to `Xstart` and `Xend`. */
  const ColumnOffset: int := 2
  /** The row offset `SetWindows` adds to `Ystart` and `Yend`. */
  const RowOffset: int := 1

  /** The vendor register sequence `Init` sends after the reset pulse, one entry per
      `command`/`data` call, in source order. */
  const InitTable: seq<Op> := PanelSetup + PixelFormat + PanelTuning + DisplayOn

  /** Memory access control and the vendor timing and power registers, up to 0xA8. */
  const PanelSetup: seq<Op> := [
      Cmd(0x36), Dat(0xC8),
      Cmd(0xB0), Dat(0xC0),
      Cmd(0xB2), Dat(0x2F),
      Cmd(0xB3), Dat(0x03),
      Cmd(0xB6), Dat(0x19),
      Cmd(0xB7), Dat(0x01),
      Cmd(0xAC), Dat(0xCB),
      Cmd(0xAB), Dat(0x0E),
      Cmd(0xB4), Dat(0x04),
      Cmd(0xA8), Dat(0x19)
    ]

  /** Interface pixel format: 16 bits per pixel. */
  const PixelFormat: seq<Op> := [Cmd(0x3A), Dat(0x05)]

  /** The remaining vendor registers, then the positive and negative gamma tables. */
  const PanelTuning: seq<Op> := [
      Cmd(0xB8), Dat(0x08),
      Cmd(0xE8), Dat(0x24),
      Cmd(0xE9), Dat(0x48),
      Cmd(0xEA), Dat(0x22),
      Cmd(0xC6), Dat(0x30),
      Cmd(0xC7), Dat(0x18),
      Cmd(0xF0), Dat(0x1F), Dat(0x28), Dat(0x04), Dat(0x3E), Dat(0x2A), Dat(0x2E), Dat(0x20),
                 Dat(0x00), Dat(0x0C), Dat(0x06), Dat(0x00), Dat(0x1C), Dat(0x1F), Dat(0x0F),
      Cmd(0xF1), Dat(0x00), Dat(0x2D), Dat(0x2F), Dat(0x3C), Dat(0x6F), Dat(0x1C), Dat(0x0B),
                 Dat(0x00), Dat(0x00), Dat(0x00), Dat(0x07), Dat(0x0D), Dat(0x11), Dat(0x0F)
    ]

  /** What `ShowImage` and `clear` put on the bus for a buffer: the full-panel window
      (shifted by the offsets), DC raised for data, then the buffer in bursts. */
  function FullFrameTrace(buf: seq<byte>): seq<Event>
  {
    OpsTrace(WindowOps(ColumnOffset, RowOffset, Width + ColumnOffset, Height + RowOffset))
      + [DcPin(High)] + SpiWrites(Chunks(buf))
  }

  class Lcd0inch85 {
    const bus: RaspberryPi

    constructor ()
      ensures fresh(bus) && bus.trace == []
    {
      bus := new RaspberryPi();
    }

    /** `command(cmd)`: DC low, then the one byte. */
    method Command(cmd: byte)
      modifies bus
      ensures bus.trace == old(bus.trace) + [DcPin(Low), SpiWrite([cmd])]
    {
      bus.DigitalWriteDc(Low);
      bus.SpiWriteByte([cmd]);
    }

    /** `data(val)`: DC high, then the one byte. */
    method Data(val: byte)
      modifies bus
      ensures bus.trace == old(bus.trace) + [DcPin(High), SpiWrite([val])]
    {
      bus.DigitalWriteDc(High);
      bus.SpiWriteByte([val]);
    }

    /** A run of `command`/`data` calls, in order. */
    method SendOps(ops: seq<Op>)
      modifies bus
      ensures bus.trace == old(bus.trace) + OpsTrace(ops)
    {
      for k := 0 to |ops|
        invariant bus.trace == old(bus.trace) + OpsTrace(ops[..k])
      {
        match ops[k] {
          case Cmd(b) => Command(b);
          case Dat(b) => Data(b);
        }
        OpsTraceSnoc(ops, k);
      }
      assert ops[..|ops|] == ops;
    }

    /** `reset`: RST high, low, high. */
    method Reset()
      modifies bus
      ensures bus.trace == old(bus.trace) + ResetPulse
    {
      bus.OutputRst(High);
      bus.OutputRst(Low);
      bus.OutputRst(High);
    }

    /** `Init`: module set-up, the reset pulse, then the vendor register table. */
    method Init()
      modifies bus
      ensures bus.trace == old(bus.trace) + [ModuleInit] + ResetPulse + OpsTrace(InitTable)
    {
      bus.ModuleInitialize();
      Reset();
      SendOps(InitTable);
    }

    /** `SetWindows`: columns shifted by 2, rows by 1, ends sent as `end - 1`. */
    method SetWindows(xStart: int, yStart: int, xEnd: int, yEnd: int)
      modifies bus
      ensures bus.trace == old(bus.trace)
           + OpsTrace(WindowOps(xStart + ColumnOffset, yStart + RowOffset, xEnd + ColumnOffset, yEnd + RowOffset))
    {
      var xs := xStart + ColumnOffset;
      var xe := xEnd + ColumnOffset;
      var ys := yStart + RowOffset;
      var ye := yEnd + RowOffset;
      SendOps(WindowOps(xs, ys, xe, ye));
    }

    /** `ShowImage`: refuses an image of any other size before touching the bus;
        otherwise packs it to RGB565 and streams it into the full-panel window. */
    method ShowImage(image: Raster) returns (outcome: Outcome<DriverError>)
      modifies bus
      ensures outcome.Fail? <==> image.width != Width || image.height != Height
      ensures outcome.Fail? ==> outcome.error == SizeMismatch(Width, Height) && bus.trace == old(bus.trace)
      ensures outcome.Pass? ==> bus.trace == old(bus.trace) + FullFrameTrace(PackImage(image))
    {
      if image.width != Width || image.height != Height {
        outcome := Fail(SizeMismatch(Width, Height));
      } else {
        var pix := PackImage(image);
        SetWindows(0, 0, Width, Height);
        bus.DigitalWriteDc(High);
        bus.WriteChunked(pix);
        outcome := Pass;
      }
    }

    /** `clear`: `width * height * 2` bytes of 0xFF through the same window and chunk path. */
    method Clear()
      modifies bus
      ensures bus.trace == old(bus.trace) + FullFrameTrace(Fill(Width * Height * 2))
    {
      var buffer := Fill(Width * Height * 2);
      SetWindows(0, 0, Width, Height);
      bus.DigitalWriteDc(High);
      bus.WriteChunked(buffer);
    }
  }

  /** The window `SetWindows(x0, y0, x1, y1)` makes the controller latch: columns
      `x0 + 2 .. x1 + 1`, rows `y0 + 1 .. y1`, each modulo 2^16. */
  lemma SetWindowsLatches(x0: int, y0: int, x1: int, y1: int)
    ensures DecodeWindow(WindowOps(x0 + ColumnOffset, y0 + RowOffset, x1 + ColumnOffset, y1 + RowOffset))
         == Some(Window((x0 + 2) % 65536, (x1 + 1) % 65536, (y0 + 1) % 65536, y1 % 65536))
  {
    WindowOpsDecode(x0 + ColumnOffset, y0 + RowOffset, x1 + ColumnOffset, y1 + RowOffset);
  }

  /** The full-panel window of `ShowImage` and `clear` covers controller columns 2..129
      and rows 1..128: 128 of each, as many as the image has. */
  lemma FullPanelWindow()
    ensures DecodeWindow(WindowOps(ColumnOffset, RowOffset, Width + ColumnOffset, Height + RowOffset))
         == Some(Window(2, 129, 1, 128))
  {
    WindowOpsExact(ColumnOffset, RowOffset, Width + ColumnOffset, Height + RowOffset);
  }

  /** A 128x128 frame is 32768 bytes, sent as exactly 8 full bursts of 4096 bytes which
      together are the packed buffer. */
  lemma FrameBursts(image: Raster)
    requires image.width == Width && image.height == Height
    ensures |PackImage(image)| == 32768
    ensures |Chunks(PackImage(image))| == 8
    ensures forall k :: 0 <= k < 8 ==> Chunks(PackImage(image))[k] == PackImage(image)[4096 * k..4096 * (k + 1)]
    ensures Concat(Chunks(PackImage(image))) == PackImage(image)
  {
    var buf := PackImage(image);
    PackImageLength(image);
    ChunksFlatten(buf);
    forall k | 0 <= k < 8
      ensures Chunks(buf)[k] == buf[4096 * k..4096 * (k + 1)]
    {
      ChunkIndex(buf, k);
    }
  }

  /** `clear` streams 32768 bytes, all 0xFF, in the same 8 full bursts. */
  lemma ClearBursts()
    ensures |Fill(Width * Height * 2)| == 32768
    ensures |Chunks(Fill(Width * Height * 2))| == 8
    ensures forall k :: 0 <= k < 8 ==> Chunks(Fill(Width * Height * 2))[k] == Fill(4096)
  {
    var buf := Fill(32768);
    forall k | 0 <= k < 8
      ensures Chunks(buf)[k] == Fill(4096)
    {
      ChunkIndex(buf, k);
    }
  }

  /** `Init` selects 16-bit pixels (0x3A/0x05) and ends with inversion on, sleep out
      and display on (0x21, 0x11, 0x29). */
  lemma InitTableLayout()
    ensures |InitTable| == 67
    ensures InitTable[20..22] == [Cmd(0x3A), Dat(0x05)]
    ensures InitTable[64..] == [Cmd(0x21), Cmd(0x11), Cmd(0x29)]
  {
    assert |PanelSetup| == 20;
    assert InitTable == PanelSetup + (PixelFormat + PanelTuning + DisplayOn);
  }
}
