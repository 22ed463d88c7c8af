/**
 The bus underneath both panel drivers: one GPIO line selecting command (low) or
 data (high), one reset line, and an SPI push primitive. The base class that owns
 these pins is not part of this model; here it is a recorder that appends every
 pin write and every SPI burst to a trace, so that a driver operation is specified
 by the exact sequence of events it produces.

 The module also holds what both drivers share: the command/data byte helpers
 (`command` and `data` in each driver are one level write followed by a one-byte
 burst) and the 4096-byte chunking used by `ShowImage` and `clear`.
 */
module LcdBus {
  import opened Sequences

  /** An octet on the bus. */
  newtype byte = x: int | 0 <= x < 256

  datatype Level = Low | High

  datatype Event =
    | ModuleInit              // the base class's `module_init` (its pin and SPI set-up is not modelled)
    | DcPin(dc: Level)        // `digital_write(DC_PIN, level)`
    | RstPin(rst: Level)      // `GPIO.output(RST_PIN, level)`
    | SpiWrite(bytes: seq<byte>)  // one `spi_writebyte(list)` call

  /** One step of a driver's command stream: `command(b)` or `data(b)`. */
  datatype Op = Cmd(b: byte) | Dat(b: byte)

  /** The reset pulse: RST high, low, high (the 10 ms settle delays are not modelled). */
  const ResetPulse: seq<Event> := [RstPin(High), RstPin(Low), RstPin(High)]

  /** The three commands both panels' `Init` ends with: display inversion on (0x21),
      sleep out (0x11), display on (0x29). */
  const DisplayOn: seq<Op> := [Cmd(0x21), Cmd(0x11), Cmd(0x29)]

  /** `ShowImage`'s `ValueError`: the image is not the panel's size. */
  datatype DriverError = SizeMismatch(width: nat, height: nat)

  /** `[0xff] * n`, the buffer `clear` sends. */
  function Fill(n: nat): (buf: seq<byte>)
    ensures |buf| == n && forall i :: 0 <= i < n ==> buf[i] == 0xFF
  {
    seq(n, _ => 0xFF)
  }

  /** The largest burst a driver hands to one `spi_writebyte` call. */
  const MaxChunk: nat := 4096

  /** The events one `command` or `data` call produces: the DC level, then a one-byte burst. */
  function OpEvents(op: Op): (es: seq<Event>)
    ensures |es| == 2 && es[1] == SpiWrite([op.b])
    ensures es[0] == DcPin(if op.Cmd? then Low else High)
  {
    match op
    case Cmd(b) => [DcPin(Low), SpiWrite([b])]
    case Dat(b) => [DcPin(High), SpiWrite([b])]
  }

  /** The events of a whole sequence of `command`/`data` calls, in order. */
  function OpsTrace(ops: seq<Op>): seq<Event>
  {
    if ops == [] then [] else OpEvents(ops[0]) + OpsTrace(ops[1..])
  }

  lemma {:induction false} OpsTraceAppend(a: seq<Op>, b: seq<Op>)
    ensures OpsTrace(a + b) == OpsTrace(a) + OpsTrace(b)
  {
    if a == [] {
      assert a + b == b;
    } else {
      assert (a + b)[1..] == a[1..] + b;
      OpsTraceAppend(a[1..], b);
    }
  }

  lemma OpsTraceSnoc(ops: seq<Op>, k: nat)
    requires k < |ops|
    ensures OpsTrace(ops[..k + 1]) == OpsTrace(ops[..k]) + OpEvents(ops[k])
  {
    assert ops[..k + 1] == ops[..k] + [ops[k]];
    assert [ops[k]][1..] == [];
    OpsTraceAppend(ops[..k], [ops[k]]);
  }

  /** Each `command`/`data` call contributes exactly two events, so the trace of a
      command stream can be decoded position by position. */
  lemma {:induction false} OpsTraceAt(ops: seq<Op>, k: nat)
    requires k < |ops|
    ensures |OpsTrace(ops)| == 2 * |ops|
    ensures OpsTrace(ops)[2 * k] == DcPin(if ops[k].Cmd? then Low else High)
    ensures OpsTrace(ops)[2 * k + 1] == SpiWrite([ops[k].b])
  {
    if k == 0 {
      OpsTraceLength(ops[1..]);
    } else {
      OpsTraceAt(ops[1..], k - 1);
    }
  }

  lemma {:induction false} OpsTraceLength(ops: seq<Op>)
    ensures |OpsTrace(ops)| == 2 * |ops|
  {
    if ops != [] {
      OpsTraceLength(ops[1..]);
    }
  }

  /** `buf[i:i+4096]` with Python's clamping of the end index. */
  function ChunkAt(buf: seq<byte>, i: nat): (c: seq<byte>)
    requires i < |buf|
    ensures |c| == if i + MaxChunk <= |buf| then MaxChunk else |buf| - i
    ensures 0 < |c| <= MaxChunk && c == buf[i..i + |c|]
  {
    if i + MaxChunk <= |buf| then buf[i..i + MaxChunk] else buf[i..]
  }

  /** The bursts of `for i in range(0, len(buf), 4096): spi_writebyte(buf[i:i+4096])`. */
  function Chunks(buf: seq<byte>): (cs: seq<seq<byte>>)
    ensures |cs| == (|buf| + MaxChunk - 1) / MaxChunk
    ensures forall k :: 0 <= k < |cs| ==> 0 < |cs[k]| <= MaxChunk
    decreases |buf|
  {
    if buf == [] then []
    else
      var c := ChunkAt(buf, 0);
      [c] + Chunks(buf[|c|..])
  }

  /** Chunking loses nothing and reorders nothing: the bursts, concatenated, are the buffer. */
  lemma {:induction false} ChunksFlatten(buf: seq<byte>)
    ensures Concat(Chunks(buf)) == buf
    decreases |buf|
  {
    if buf != [] {
      var c := ChunkAt(buf, 0);
      ChunksFlatten(buf[|c|..]);
      assert Chunks(buf) == [c] + Chunks(buf[|c|..]);
      ConcatCons(c, Chunks(buf[|c|..]));
      assert c + buf[|c|..] == buf;
    }
  }

  /** Burst `k` is exactly the slice the Python loop takes at `i = 4096 * k`, and every
      burst but the last is full. */
  lemma {:induction false} ChunkIndex(buf: seq<byte>, k: nat)
    requires k < |Chunks(buf)|
    ensures MaxChunk * k < |buf|
    ensures Chunks(buf)[k] == ChunkAt(buf, MaxChunk * k)
    ensures k + 1 < |Chunks(buf)| ==> |Chunks(buf)[k]| == MaxChunk
    decreases |buf|
  {
    var c := ChunkAt(buf, 0);
    if k > 0 {
      var rest := buf[|c|..];
      assert Chunks(buf)[1..] == Chunks(rest);
      ChunkIndex(rest, k - 1);
      assert |c| == MaxChunk;
      assert rest[MaxChunk * (k - 1)..] == buf[MaxChunk * k..];
    }
  }

  /** One `SpiWrite` event per burst, in order. */
  function SpiWrites(cs: seq<seq<byte>>): seq<Event>
  {
    if cs == [] then [] else [SpiWrite(cs[0])] + SpiWrites(cs[1..])
  }

  lemma {:induction false} SpiWritesAt(cs: seq<seq<byte>>, k: nat)
    requires k < |cs|
    ensures |SpiWrites(cs)| == |cs| && SpiWrites(cs)[k] == SpiWrite(cs[k])
  {
    if k == 0 {
      SpiWritesLength(cs[1..]);
    } else {
      SpiWritesAt(cs[1..], k - 1);
    }
  }

  lemma {:induction false} SpiWritesLength(cs: seq<seq<byte>>)
    ensures |SpiWrites(cs)| == |cs|
  {
    if cs != [] {
      SpiWritesLength(cs[1..]);
    }
  }

  /** `buf[i:]`, empty once `i` has run past the end (Python's `range` stops there). */
  function Rest(buf: seq<byte>, i: nat): seq<byte>
  {
    if i < |buf| then buf[i..] else []
  }

  /** What is left to send after the burst at `i` is the burst at `i + 4096` onwards. */
  lemma ChunksUnfold(buf: seq<byte>, i: nat)
    requires i < |buf|
    ensures SpiWrites(Chunks(Rest(buf, i)))
         == [SpiWrite(ChunkAt(buf, i))] + SpiWrites(Chunks(Rest(buf, i + MaxChunk)))
  {
    var rest := buf[i..];
    var c := ChunkAt(buf, i);
    assert ChunkAt(rest, 0) == c;
    assert rest[|c|..] == Rest(buf, i + MaxChunk);
    assert Chunks(rest) == [c] + Chunks(Rest(buf, i + MaxChunk));
  }

  /** The pin-and-SPI layer the drivers inherit from; every call is recorded. */
  class RaspberryPi {
    var trace: seq<Event>

    constructor ()
      ensures trace == []
    {
      trace := [];
    }

    method ModuleInitialize()
      modifies this
      ensures trace == old(trace) + [ModuleInit]
    {
      trace := trace + [ModuleInit];
    }

    method DigitalWriteDc(level: Level)
      modifies this
      ensures trace == old(trace) + [DcPin(level)]
    {
      trace := trace + [DcPin(level)];
    }

    method OutputRst(level: Level)
      modifies this
      ensures trace == old(trace) + [RstPin(level)]
    {
      trace := trace + [RstPin(level)];
    }

    method SpiWriteByte(bytes: seq<byte>)
      modifies this
      ensures trace == old(trace) + [SpiWrite(bytes)]
    {
      trace := trace + [SpiWrite(bytes)];
    }

    /** The chunk loop that closes both `ShowImage` and `clear` in each driver:
        `for i in range(0, len(buf), 4096): spi_writebyte(buf[i:i+4096])`. */
    method WriteChunked(buf: seq<byte>)
      modifies this
      ensures trace == old(trace) + SpiWrites(Chunks(buf))
    {
      var i: nat := 0;
      assert Rest(buf, 0) == buf;
      while i < |buf|
        invariant old(trace) + SpiWrites(Chunks(buf)) == trace + SpiWrites(Chunks(Rest(buf, i)))
      {
        var chunk := ChunkAt(buf, i);
        ghost var before := trace;
        SpiWriteByte(chunk);
        ChunksUnfold(buf, i);
        assert before + SpiWrites(Chunks(Rest(buf, i)))
            == trace + SpiWrites(Chunks(Rest(buf, i + MaxChunk)));
        i := i + MaxChunk;
      }
      assert Rest(buf, i) == [];
    }
  }
}
