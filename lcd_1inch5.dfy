/**
 The driver of the 1.5-inch 240x280 panel. Its controller RAM is addressed with a
 20-row offset: `SetWindows` shifts both row bounds by 20 and leaves the columns
 alone. Every operation is specified by the bus events it appends.
 */
module Lcd1inch5Driver {
  import opened Wrappers
  import opened Sequences
  import opened LcdBus
  import opened Rgb565
  import opened DcsWindow

  const Width: nat := 240
  const Height: nat := 280
  /** The row offset `SetWindows` adds to `Ystart` and `Yend`. */
  const RowOffset: int := 20

  /** The vendor register sequence `Init` sends after the reset pulse, one entry per
      `command`/`data` call, in source order. */
  const InitTable: seq<Op> := VendorSetup + PixelFormat + TearingEffect + DisplayOn

  /** Memory access control, then the vendor timing, power and gamma registers. */
  const VendorSetup: seq<Op> := [
      Cmd(0x36), Dat(0x00),
      Cmd(0xFD), Dat(0x06), Dat(0x08),
      Cmd(0x61), Dat(0x07), Dat(0x04),
      Cmd(0x62), Dat(0x00), Dat(0x44), Dat(0x45),
      Cmd(0x63), Dat(0x41), Dat(0x07), Dat(0x12), Dat(0x12),
      Cmd(0x64), Dat(0x37),
      Cmd(0x65), Dat(0x09), Dat(0x10), Dat(0x21),
      Cmd(0x66), Dat(0x09), Dat(0x10), Dat(0x21),
      Cmd(0x67), Dat(0x21), Dat(0x40),
      Cmd(0x68), Dat(0x90), Dat(0x4C), Dat(0x50), Dat(0x70),
      Cmd(0xB1), Dat(0x0F), Dat(0x02), Dat(0x01),
      Cmd(0xB4), Dat(0x01),
      Cmd(0xB5), Dat(0x02), Dat(0x02), Dat(0x0A), Dat(0x14),
      Cmd(0xB6), Dat(0x04), Dat(0x01), Dat(0x9F), Dat(0x00), Dat(0x02),
      Cmd(0xDF), Dat(0x11),
      Cmd(0xE2), Dat(0x03), Dat(0x00), Dat(0x00), Dat(0x30), Dat(0x33), Dat(0x3F),
      Cmd(0xE5), Dat(0x3F), Dat(0x33), Dat(0x30), Dat(0x00), Dat(0x00), Dat(0x03),
      Cmd(0xE1), Dat(0x05), Dat(0x67),
      Cmd(0xE4), Dat(0x67), Dat(0x06),
      Cmd(0xE0), Dat(0x05), Dat(0x06), Dat(0x0A), Dat(0x0C), Dat(0x0B), Dat(0x0B), Dat(0x13), Dat(0x19),
      Cmd(0xE3), Dat(0x18), Dat(0x13), Dat(0x0D), Dat(0x09), Dat(0x0B), Dat(0x0B), Dat(0x05), Dat(0x06),
      Cmd(0xE6), Dat(0x00), Dat(0xFF),
      Cmd(0xE7), Dat(0x01), Dat(0x04), Dat(0x03), Dat(0x03), Dat(0x00), Dat(0x12),
      Cmd(0xE8), Dat(0x00), Dat(0x70), Dat(0x00),
      Cmd(0xEC), Dat(0x52),
      Cmd(0xF1), Dat(0x01), Dat(0x01), Dat(0x02),
      Cmd(0xF6), Dat(0x01), Dat(0x30), Dat(0x00), Dat(0x00),
      Cmd(0xFD), Dat(0xFA), Dat(0xFC)
    ]

  /** Interface pixel format: 16 bits per pixel. */
  const PixelFormat: seq<Op> := [Cmd(0x3A), Dat(0x55)]

  /** Tearing-effect line on, V-blank only. */
  const TearingEffect: seq<Op> := [Cmd(0x35), Dat(0x00)]

  /** What `ShowImage` and `clear` put on the bus for a buffer: the full-panel window,
      DC raised for data, then the buffer in bursts of at most 4096 bytes. */
  function FullFrameTrace(buf: seq<byte>): seq<Event>
  {
    OpsTrace(WindowOps(0, RowOffset, Width, Height + RowOffset)) + [DcPin(High)] + SpiWrites(Chunks(buf))
  }

  class Lcd1inch5 {
    const bus: RaspberryPi

    constructor ()
      ensures fresh(bus) && bus.trace == []
    {
      bus := new RaspberryPi();
    }

    /** `command(cmd)`: DC low, then the one byte. */
    method Command(cmd: byte)
      modifies bus
      ensures bus.trace == old(bus.trace) + [DcPin(Low), SpiWrite([cmd])]
    {
      bus.DigitalWriteDc(Low);
      bus.SpiWriteByte([cmd]);
    }

    /** `data(val)`: DC high, then the one byte. */
    method Data(val: byte)
      modifies bus
      ensures bus.trace == old(bus.trace) + [DcPin(High), SpiWrite([val])]
    {
      bus.DigitalWriteDc(High);
      bus.SpiWriteByte([val]);
    }

    /** A run of `command`/`data` calls, in order. */
    method SendOps(ops: seq<Op>)
      modifies bus
      ensures bus.trace == old(bus.trace) + OpsTrace(ops)
    {
      for k := 0 to |ops|
        invariant bus.trace == old(bus.trace) + OpsTrace(ops[..k])
      {
        match ops[k] {
          case Cmd(b) => Command(b);
          case Dat(b) => Data(b);
        }
        OpsTraceSnoc(ops, k);
      }
      assert ops[..|ops|] == ops;
    }

    /** `reset`: RST high, low, high. */
    method Reset()
      modifies bus
      ensures bus.trace == old(bus.trace) + ResetPulse
    {
      bus.OutputRst(High);
      bus.OutputRst(Low);
      bus.OutputRst(High);
    }

    /** `Init`: module set-up, the reset pulse, then the vendor register table. */
    method Init()
      modifies bus
      ensures bus.trace == old(bus.trace) + [ModuleInit] + ResetPulse + OpsTrace(InitTable)
    {
      bus.ModuleInitialize();
      Reset();
      SendOps(InitTable);
    }

    /** `SetWindows`: rows shifted by 20, columns unshifted, ends sent as `end - 1`. */
    method SetWindows(xStart: int, yStart: int, xEnd: int, yEnd: int)
      modifies bus
      ensures bus.trace
           == old(bus.trace) + OpsTrace(WindowOps(xStart, yStart + RowOffset, xEnd, yEnd + RowOffset))
    {
      var ys := yStart + RowOffset;
      var ye := yEnd + RowOffset;
      SendOps(WindowOps(xStart, ys, xEnd, ye));
    }

    /** `ShowImage`: refuses an image of any other size before touching the bus;
        otherwise packs it to RGB565 and streams it into the full-panel window. */
    method ShowImage(image: Raster) returns (outcome: Outcome<DriverError>)
      modifies bus
      ensures outcome.Fail? <==> image.width != Width || image.height != Height
      ensures outcome.Fail? ==> outcome.error == SizeMismatch(Width, Height) && bus.trace == old(bus.trace)
      ensures outcome.Pass? ==> bus.trace == old(bus.trace) + FullFrameTrace(PackImage(image))
    {
      if image.width != Width || image.height != Height {
        outcome := Fail(SizeMismatch(Width, Height));
      } else {
        var pix := PackImage(image);
        SetWindows(0, 0, Width, Height);
        bus.DigitalWriteDc(High);
        bus.WriteChunked(pix);
        outcome := Pass;
      }
    }

    /** `clear`: `width * height * 2` bytes of 0xFF through the same window and chunk path. */
    method Clear()
      modifies bus
      ensures bus.trace == old(bus.trace) + FullFrameTrace(Fill(Width * Height * 2))
    {
      var buffer := Fill(Width * Height * 2);
      SetWindows(0, 0, Width, Height);
      bus.DigitalWriteDc(High);
      bus.WriteChunked(buffer);
    }
  }

  /** The window `SetWindows(x0, y0, x1, y1)` makes the controller latch: columns
      `x0 .. x1 - 1` as given, rows `y0 + 20 .. y1 + 19`, each modulo 2^16. */
  lemma SetWindowsLatches(x0: int, y0: int, x1: int, y1: int)
    ensures DecodeWindow(WindowOps(x0, y0 + RowOffset, x1, y1 + RowOffset))
         == Some(Window(x0 % 65536, (x1 - 1) % 65536, (y0 + 20) % 65536, (y1 + 19) % 65536))
  {
    WindowOpsDecode(x0, y0 + RowOffset, x1, y1 + RowOffset);
  }

  /** The full-panel window of `ShowImage` and `clear` covers columns 0..239 and
      controller rows 20..299. */
  lemma FullPanelWindow()
    ensures DecodeWindow(WindowOps(0, RowOffset, Width, Height + RowOffset)) == Some(Window(0, 239, 20, 299))
  {
    WindowOpsExact(0, RowOffset, Width, Height + RowOffset);
  }

  /** A 240x280 frame is 134400 bytes, sent as 32 full bursts and a last one of 3328
      bytes, which together are exactly the packed buffer. */
  lemma FrameBursts(image: Raster)
    requires image.width == Width && image.height == Height
    ensures |PackImage(image)| == 134400
    ensures |Chunks(PackImage(image))| == 33
    ensures forall k :: 0 <= k < 32 ==> |Chunks(PackImage(image))[k]| == 4096
    ensures |Chunks(PackImage(image))[32]| == 3328
    ensures Concat(Chunks(PackImage(image))) == PackImage(image)
  {
    var buf := PackImage(image);
    PackImageLength(image);
    ChunksFlatten(buf);
    forall k | 0 <= k < 32
      ensures |Chunks(buf)[k]| == 4096
    {
      ChunkIndex(buf, k);
    }
    ChunkIndex(buf, 32);
  }

  /** `clear` streams 134400 bytes, all 0xFF, in the same 33 bursts. */
  lemma ClearBursts()
    ensures |Fill(Width * Height * 2)| == 134400
    ensures |Chunks(Fill(Width * Height * 2))| == 33
    ensures Concat(Chunks(Fill(Width * Height * 2))) == Fill(134400)
    ensures |Chunks(Fill(Width * Height * 2))[32]| == 3328
  {
    ChunksFlatten(Fill(134400));
    ChunkIndex(Fill(134400), 32);
  }

  /** `Init` ends by selecting 16-bit pixels (0x3A/0x55), turning tearing-effect output
      on (0x35/0x00), then inversion on, sleep out and display on (0x21, 0x11, 0x29). */
  lemma InitTableLayout()
    ensures |InitTable| == 127
    ensures InitTable[120..] == [Cmd(0x3A), Dat(0x55), Cmd(0x35), Dat(0x00), Cmd(0x21), Cmd(0x11), Cmd(0x29)]
  {
    assert |VendorSetup| == 120;
    assert InitTable == VendorSetup + (PixelFormat + TearingEffect + DisplayOn);
  }
}
