/**
 Window addressing in the MIPI Display Command Set, as both drivers' `SetWindows`
 emits it once the panel offset has been applied: set_column_address (0x2A) and
 set_page_address (0x2B), each followed by the start and the end of the range as
 big-endian 16-bit values, then write_memory_start (0x2C). The end written is the
 exclusive bound minus one.
 */
module DcsWindow {
  import opened Wrappers
  import opened LcdBus

  const SetColumnAddress: byte := 0x2A
  const SetPageAddress: byte := 0x2B
  const WriteMemoryStart: byte := 0x2C

  /** `(v >> 8) & 0xff` on a Python int (an arithmetic shift is a floor division). */
  function HighOctet(v: int): byte
  {
    ((v / 256) % 256) as byte
  }

  /** `v & 0xff` on a Python int. */
  function LowOctet(v: int): byte
  {
    (v % 256) as byte
  }

  /** The command stream of `SetWindows` after its arguments have been offset. */
  function WindowOps(xStart: int, yStart: int, xEnd: int, yEnd: int): seq<Op>
  {
    [ Cmd(SetColumnAddress),
      Dat(HighOctet(xStart)), Dat(LowOctet(xStart)),
      Dat(HighOctet(xEnd - 1)), Dat(LowOctet(xEnd - 1)),
      Cmd(SetPageAddress),
      Dat(HighOctet(yStart)), Dat(LowOctet(yStart)),
      Dat(HighOctet(yEnd - 1)), Dat(LowOctet(yEnd - 1)),
      Cmd(WriteMemoryStart) ]
  }

  /** The address window a controller latches: inclusive column and page ranges. */
  datatype Window = Window(columnStart: int, columnEnd: int, pageStart: int, pageEnd: int)

  function Word(high: byte, low: byte): (v: int)
    ensures 0 <= v < 65536
  {
    high as int * 256 + low as int
  }

  /** How the controller reads a window command stream; anything not shaped like one
      (wrong length, wrong opcodes, a data byte where a command belongs) is refused. */
  function DecodeWindow(ops: seq<Op>): Option<Window>
  {
    if |ops| == 11
       && ops[0] == Cmd(SetColumnAddress) && ops[5] == Cmd(SetPageAddress)
       && ops[10] == Cmd(WriteMemoryStart)
       && ops[1].Dat? && ops[2].Dat? && ops[3].Dat? && ops[4].Dat?
       && ops[6].Dat? && ops[7].Dat? && ops[8].Dat? && ops[9].Dat?
    then Some(Window(Word(ops[1].b, ops[2].b), Word(ops[3].b, ops[4].b),
                     Word(ops[6].b, ops[7].b), Word(ops[8].b, ops[9].b)))
    else None
  }

  /** The two octets carry the value modulo 2^16: the high octet first, then the low one. */
  lemma {:induction false} OctetsRoundTrip(v: int)
    ensures Word(HighOctet(v), LowOctet(v)) == v % 65536
  {
    var q := v / 256;
    assert v == 256 * q + v % 256;
    assert q == 256 * (q / 256) + q % 256;
    assert v == 65536 * (q / 256) + 256 * (q % 256) + v % 256;
  }

  /** A controller reading the stream latches columns `xStart .. xEnd - 1` and pages
      `yStart .. yEnd - 1`, each taken modulo 2^16. */
  lemma WindowOpsDecode(xStart: int, yStart: int, xEnd: int, yEnd: int)
    ensures DecodeWindow(WindowOps(xStart, yStart, xEnd, yEnd))
         == Some(Window(xStart % 65536, (xEnd - 1) % 65536, yStart % 65536, (yEnd - 1) % 65536))
  {
    OctetsRoundTrip(xStart);
    OctetsRoundTrip(xEnd - 1);
    OctetsRoundTrip(yStart);
    OctetsRoundTrip(yEnd - 1);
  }

  lemma ModSmall(v: int)
    requires 0 <= v < 65536
    ensures v % 65536 == v
  {
  }

  /** A window that fits the 16-bit address space is latched exactly as requested:
      columns `xStart .. xEnd - 1`, pages `yStart .. yEnd - 1`. */
  lemma WindowOpsExact(xStart: int, yStart: int, xEnd: int, yEnd: int)
    requires 0 <= xStart < 65536 && 1 <= xEnd <= 65536
    requires 0 <= yStart < 65536 && 1 <= yEnd <= 65536
    ensures DecodeWindow(WindowOps(xStart, yStart, xEnd, yEnd)) == Some(Window(xStart, xEnd - 1, yStart, yEnd - 1))
  {
    WindowOpsDecode(xStart, yStart, xEnd, yEnd);
    ModSmall(xStart);
    ModSmall(xEnd - 1);
    ModSmall(yStart);
    ModSmall(yEnd - 1);
  }
}
