/** Model of the decoder side of main.c: the port-2 chip-select and reset
    helpers, the SCI register write, decoder_init and transfer_data_block.

    The hardware is seen through the trace of events the firmware causes:
    chip-select and reset edges, waits for DREQ, and single-byte exchanges on
    the SPI bus (ssp2__exchange_byte). A busy wait on DREQ is the one event
    WaitDreq; how long it spins is not modelled. */
module Mp3Decoder {
  import opened Wrappers

  type byte = bv8

  /** Port-2 pins wired to the decoder. */
  const SciCsPin: nat := 2    // XCS, selects the control interface (SCI)
  const SdiCsPin: nat := 5    // XDCS, selects the data interface (SDI)
  const ResetPin: nat := 9    // XRST

  /** The SCI opcode for a register write. */
  const SciWriteOpcode: byte := 0x02

  /** The size of songData_s, the unit the Reader sends and the Player streams. */
  const BlockSize: nat := 512

  type Block = s: seq<byte> | |s| == BlockSize witness seq(BlockSize, _ => 0)

  datatype Event =
    | SciCs | SciDs         // XCS low / high
    | SdiCs | SdiDs         // XDCS low / high
    | ResetLow | ResetHigh  // XRST low / high
    | WaitDreq              // spin until the decoder raises DREQ
    | Xchg(b: byte)         // one byte exchanged on the SPI bus

  /** The high and the low byte of a 16-bit value: `data >> 8`, and `data`
      truncated to the uint8_t parameter of ssp2__exchange_byte. */
  function Hi(d: bv16): (h: byte)
    ensures h as int == d as int / 256
  {
    (d >> 8) as bv8
  }

  function Lo(d: bv16): (l: byte)
    ensures l as bv16 == d - ((Hi(d) as bv16) << 8)
  {
    (d & 0xFF) as bv8
  }

  /** The two bytes put together give the value back. */
  lemma HiLoRoundTrip(d: bv16)
    ensures ((Hi(d) as bv16) << 8) | (Lo(d) as bv16) == d
  {
  }

  /** The events of write_16bits_on_decoder(address, data). */
  function SciWrite(address: byte, data: bv16): seq<Event>
  {
    [WaitDreq, SciCs,
     Xchg(SciWriteOpcode), Xchg(address), Xchg(Hi(data)), Xchg(Lo(data)),
     WaitDreq, SciDs]
  }

  /** The bytes a trace puts on the bus, in order. */
  function Exchanged(t: seq<Event>): seq<byte>
  {
    if t == [] then []
    else (if t[0].Xchg? then [t[0].b] else []) + Exchanged(t[1..])
  }

  lemma {:induction false} ExchangedAppend(s: seq<Event>, t: seq<Event>)
    ensures Exchanged(s + t) == Exchanged(s) + Exchanged(t)
    decreases |s|
  {
    if s == [] {
      assert s + t == t;
    } else {
      assert (s + t)[1..] == s[1..] + t;
      ExchangedAppend(s[1..], t);
    }
  }

  lemma ExchangedCons(e: Event, t: seq<Event>)
    ensures Exchanged([e] + t) == (if e.Xchg? then [e.b] else []) + Exchanged(t)
  {
    assert ([e] + t)[1..] == t;
  }

  predicate NoSdi(t: seq<Event>)
  {
    forall i :: 0 <= i < |t| ==> t[i] != SdiCs && t[i] != SdiDs
  }

  predicate NoSci(t: seq<Event>)
  {
    forall i :: 0 <= i < |t| ==> t[i] != SciCs && t[i] != SciDs
  }

  /** Reads one SCI register write back from its eight events. */
  function ParseSciWrite(t: seq<Event>): Option<(byte, bv16)>
  {
    if |t| == 8 && t[0] == WaitDreq && t[1] == SciCs && t[2] == Xchg(SciWriteOpcode) &&
       t[3].Xchg? && t[4].Xchg? && t[5].Xchg? && t[6] == WaitDreq && t[7] == SciDs
    then Some((t[3].b, ((t[4].b as bv16) << 8) | (t[5].b as bv16)))
    else None
  }

  /** An SCI write is one select/deselect pair around the write opcode, the
      address and the two data bytes (high first), after a DREQ wait and
      before a second one, so the register and the value can be read back
      from it. */
  lemma SciWriteParses(address: byte, data: bv16)
    ensures ParseSciWrite(SciWrite(address, data)) == Some((address, data))
  {
    HiLoRoundTrip(data);
  }

  /** An SCI write never touches the data interface. */
  lemma SciWriteNoSdi(address: byte, data: bv16)
    ensures NoSdi(SciWrite(address, data))
  {
  }

  /** The register writes decoder_init performs, in order: SM_SDINEW in
      SCI_MODE, maximum volume, and the clock multiplier. */
  const InitRegisterWrites: seq<(byte, bv16)> := [(0x00, 0x4800), (0x0B, 0x0000), (0x03, 0x6000)]

  /** The events of decoder_init. */
  function InitTrace(): seq<Event>
  {
    [SciDs, SdiDs, ResetLow, ResetHigh] +
    SciWrite(0x00, 0x4800) + SciWrite(0x0B, 0x0000) + SciWrite(0x03, 0x6000)
  }

  /** decoder_init deselects both interfaces, pulses reset low then high, and
      then performs exactly the three register writes, in order. */
  lemma InitSequence()
    ensures InitTrace()[..4] == [SciDs, SdiDs, ResetLow, ResetHigh]
    ensures |InitTrace()| == 4 + 8 * |InitRegisterWrites|
    ensures ParseSciWrite(InitTrace()[4..12]) == Some(InitRegisterWrites[0])
    ensures ParseSciWrite(InitTrace()[12..20]) == Some(InitRegisterWrites[1])
    ensures ParseSciWrite(InitTrace()[20..28]) == Some(InitRegisterWrites[2])
    ensures NoSdi(InitTrace()[2..])
  {
    var t := InitTrace();
    assert t[4..12] == SciWrite(0x00, 0x4800);
    assert t[12..20] == SciWrite(0x0B, 0x0000);
    assert t[20..28] == SciWrite(0x03, 0x6000);
    SciWriteParses(0x00, 0x4800);
    SciWriteParses(0x0B, 0x0000);
    SciWriteParses(0x03, 0x6000);
  }

  /** The events for one payload byte in transfer_data_block. */
  function ByteFrame(b: byte): seq<Event>
  {
    [WaitDreq, SdiCs, Xchg(b), SdiDs]
  }

  lemma ByteFrameDelivers(b: byte)
    ensures Exchanged(ByteFrame(b)) == [b]
    ensures NoSci(ByteFrame(b))
  {
    assert Exchanged([SdiDs]) == [];
    ExchangedCons(Xchg(b), [SdiDs]);
    ExchangedCons(SdiCs, [Xchg(b), SdiDs]);
    ExchangedCons(WaitDreq, [SdiCs, Xchg(b), SdiDs]);
    assert [WaitDreq] + [SdiCs, Xchg(b), SdiDs] == ByteFrame(b);
  }

  /** The events of streaming `data` byte by byte, in ascending index order. */
  function TransferTrace(data: seq<byte>): seq<Event>
    decreases |data|
  {
    if data == [] then []
    else TransferTrace(data[..|data| - 1]) + ByteFrame(data[|data| - 1])
  }

  /** Byte `i` owns events 4i to 4i+3: a DREQ wait, then its own SDI select,
      exchange and deselect, so no two bytes' frames interleave. */
  lemma {:induction false} TransferTraceFrames(data: seq<byte>, i: nat)
    requires i < |data|
    ensures |TransferTrace(data)| == 4 * |data|
    ensures TransferTrace(data)[4 * i .. 4 * i + 4] == ByteFrame(data[i])
    decreases |data|
  {
    var init := data[..|data| - 1];
    TransferTraceLength(init);
    if i < |data| - 1 {
      TransferTraceFrames(init, i);
      assert TransferTrace(data)[4 * i .. 4 * i + 4] == TransferTrace(init)[4 * i .. 4 * i + 4];
    } else {
      assert TransferTrace(data)[4 * i .. 4 * i + 4] == ByteFrame(data[|data| - 1]);
    }
  }

  lemma {:induction false} TransferTraceLength(data: seq<byte>)
    ensures |TransferTrace(data)| == 4 * |data|
    decreases |data|
  {
    if data != [] {
      TransferTraceLength(data[..|data| - 1]);
    }
  }

  /** The bytes the decoder receives are exactly the block's bytes, in order,
      and the control interface is never selected. */
  lemma {:induction false} TransferDelivers(data: seq<byte>)
    ensures Exchanged(TransferTrace(data)) == data
    ensures NoSci(TransferTrace(data))
    decreases |data|
  {
    if data != [] {
      var init := data[..|data| - 1];
      TransferDelivers(init);
      ExchangedAppend(TransferTrace(init), ByteFrame(data[|data| - 1]));
      ByteFrameDelivers(data[|data| - 1]);
      assert init + [data[|data| - 1]] == data;
    }
  }

  /** The output pins of port 2 that are high, and the trace of decoder events. */
  class Decoder {
    var port2: set<nat>
    var trace: seq<Event>

    constructor (port2: set<nat>)
      ensures this.port2 == port2 && trace == []
    {
      this.port2 := port2;
      trace := [];
    }

    /** mp3_decoder_SCI_cs: LPC_GPIO2->CLR = (1 << 2). */
    method SciSelect()
      modifies this
      ensures port2 == old(port2) - {SciCsPin} && trace == old(trace) + [SciCs]
    {
      port2 := port2 - {SciCsPin};
      trace := trace + [SciCs];
    }

    /** mp3_decoder_SCI_ds: LPC_GPIO2->SET = (1 << 2). */
    method SciDeselect()
      modifies this
      ensures port2 == old(port2) + {SciCsPin} && trace == old(trace) + [SciDs]
    {
      port2 := port2 + {SciCsPin};
      trace := trace + [SciDs];
    }

    /** mp3_decoder_SDI_cs: LPC_GPIO2->CLR = (1 << 5). */
    method SdiSelect()
      modifies this
      ensures port2 == old(port2) - {SdiCsPin} && trace == old(trace) + [SdiCs]
    {
      port2 := port2 - {SdiCsPin};
      trace := trace + [SdiCs];
    }

    /** mp3_decoder_SDI_ds: LPC_GPIO2->SET = (1 << 5). */
    method SdiDeselect()
      modifies this
      ensures port2 == old(port2) + {SdiCsPin} && trace == old(trace) + [SdiDs]
    {
      port2 := port2 + {SdiCsPin};
      trace := trace + [SdiDs];
    }

    /** reset_decoder: LPC_GPIO2->CLR = (1 << 9). */
    method Reset()
      modifies this
      ensures port2 == old(port2) - {ResetPin} && trace == old(trace) + [ResetLow]
    {
      port2 := port2 - {ResetPin};
      trace := trace + [ResetLow];
    }

    /** restart_decoder: LPC_GPIO2->SET = (1 << 9). */
    method Restart()
      modifies this
      ensures port2 == old(port2) + {ResetPin} && trace == old(trace) + [ResetHigh]
    {
      port2 := port2 + {ResetPin};
      trace := trace + [ResetHigh];
    }

    /** `while (!decoder_is_requesting_data());` */
    method WaitForDreq()
      modifies this`trace
      ensures trace == old(trace) + [WaitDreq]
    {
      trace := trace + [WaitDreq];
    }

    /** ssp2__exchange_byte; the byte it returns is never used here. */
    method ExchangeByte(b: byte)
      modifies this`trace
      ensures trace == old(trace) + [Xchg(b)]
    {
      trace := trace + [Xchg(b)];
    }

    /** write_16bits_on_decoder. */
    method WriteRegister(address: byte, data: bv16)
      modifies this
      ensures trace == old(trace) + SciWrite(address, data)
      ensures port2 == old(port2) + {SciCsPin}
    {
      WaitForDreq();
      SciSelect();
      ExchangeByte(SciWriteOpcode);
      ExchangeByte(address);
      ExchangeByte(Hi(data));
      ExchangeByte(Lo(data));
      WaitForDreq();
      SciDeselect();
    }

    /** decoder_init; the delays between the steps are not modelled. */
    method Init()
      modifies this
      ensures trace == old(trace) + InitTrace()
      ensures port2 == old(port2) + {SciCsPin, SdiCsPin, ResetPin}
    {
      SciDeselect();
      SdiDeselect();
      Reset();
      Restart();
      WriteRegister(0x00, 0x4800);
      WriteRegister(0x0B, 0x0000);
      WriteRegister(0x03, 0x6000);
    }

    /** transfer_data_block: all 512 bytes of the block, in ascending index
        order, each after a DREQ wait and inside its own SDI select/deselect. */
    method TransferBlock(block: Block)
      modifies this
      ensures trace == old(trace) + TransferTrace(block)
      ensures port2 == old(port2) + {SdiCsPin}
    {
      for index := 0 to BlockSize
        invariant trace == old(trace) + TransferTrace(block[..index])
        invariant port2 == if index == 0 then old(port2) else old(port2) + {SdiCsPin}
      {
        WaitForDreq();
        SdiSelect();
        ExchangeByte(block[index]);
        SdiDeselect();
        assert block[..index + 1][..index] == block[..index];
      }
      assert block[..BlockSize] == block;
    }
  }
}
