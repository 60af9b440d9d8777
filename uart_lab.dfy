/** Model of uart_lab.c: UART2 initialisation (power, baud divisor, line
    control, FIFO), the polled get and put, the receive interrupt that feeds
    a 100-byte queue, and the read from that queue.

    Registers written through bit masks are bit-vectors; values that are
    computed arithmetically (the divisor and its two bytes, RBR) are
    integers, where `x >> 8` is `x / 256` and `x & 0xFF` is `x % 256`. */
module UartLab {
  import opened Wrappers
  import opened Queues

  const TwoTo32: nat := 0x1_0000_0000

  type uint32 = x: nat | x < TwoTo32
  type uint16 = x: nat | x < 0x1_0000
  type uint8 = x: nat | x < 0x100

  /** The clock the divisor is computed from; the peripheral_clock argument
      of uart_lab__init is ignored. */
  const DividerClock: nat := 96 * 1000 * 1000

  /** Initialisation constants: PCONP bit 24 powers UART2, LCR bit 7 is the
      divisor latch access bit (DLAB), LCR bits 0-1 = 0b11 select 8-bit
      words, FCR bit 0 enables the FIFOs. */
  const PconpUart2: bv32 := 0x0100_0000
  const Dlab: bv8 := 0x80
  const WordLength8: bv8 := 0x03
  const FifoEnable: bv8 := 0x01

  /** IIR & (2 << 1): the receive-data-available interrupt bit. */
  const IirReceiveData: bv8 := 0x04

  /** The capacity given to xQueueCreate for the RX queue. */
  const RxQueueDepth: nat := 100

  /** The divisor uart_lab__init computes: `16 * baud_rate` in 32-bit
      unsigned arithmetic, which wraps, then integer division, then the
      truncation to uint16_t. A zero denominator (baud 0 or a multiple of
      2^28) is a division by zero in the source. */
  function Divider(baud: uint32): (divider: uint16)
    requires (16 * baud) % TwoTo32 != 0
    ensures var q := DividerClock / ((16 * baud) % TwoTo32);
      divider <= q && (q - divider) % 0x1_0000 == 0
  {
    (DividerClock / ((16 * baud) % TwoTo32)) % 0x1_0000
  }

  lemma MulLe(a: nat, b: nat, c: nat)
    requires a <= b
    ensures a * c <= b * c
  {
  }

  /** For baud rates from 92 to 2^28 - 1 neither the product nor the cast
      changes anything: the divisor is the largest value whose baud clock
      (divisor * 16 * baud) does not exceed 96 MHz. */
  lemma DividerExact(baud: uint32)
    requires 92 <= baud < 0x1000_0000
    ensures Divider(baud) == DividerClock / (16 * baud)
    ensures Divider(baud) * (16 * baud) <= DividerClock < (Divider(baud) + 1) * (16 * baud)
  {
    var d := 16 * baud;
    var q := DividerClock / d;
    assert d % TwoTo32 == d;
    MulLe(1472, d, q);
    assert q * d <= DividerClock;
  }

  /** Below 92 baud the quotient no longer fits 16 bits and is truncated:
      91 baud gives 65934, stored as 398. */
  lemma DividerTruncatedAt91()
    ensures DividerClock / (16 * 91) == 65934
    ensures Divider(91) == 398
  {
  }

  /** The bytes written to DLM, `(divider >> 8) & 0xFF`, and to DLL,
      `divider & 0xFF`. */
  function Dlm(divider: uint16): (high: uint8)
    ensures high * 256 <= divider < (high + 1) * 256
  {
    (divider / 256) % 256
  }

  function Dll(divider: uint16): (low: uint8)
    ensures Dlm(divider) * 256 + low == divider
  {
    divider % 256
  }

  /** The two latch bytes together give the divisor back, and every pair of
      bytes is the split of exactly one divisor. */
  lemma DivisorSplitRoundTrip(divider: uint16, high: uint8, low: uint8)
    ensures Dlm(divider) * 256 + Dll(divider) == divider
    ensures Dlm(high * 256 + low) == high && Dll(high * 256 + low) == low
  {
  }

  /** The LCR value uart_lab__init leaves, from the entry value `lcr`: DLAB
      set, then cleared, then the 8-bit word length ORed in. */
  function LcrAfterInit(lcr: bv8): (r: bv8)
    ensures r & Dlab == 0
    ensures r & !Dlab == (lcr & !Dlab) | WordLength8
  {
    (((lcr | Dlab) & !Dlab)) | WordLength8
  }

  /** After init DLAB is clear, the word length is 8 bits, and LCR bits 2 to 6
      (stop bits, parity, break) are those found on entry. */
  lemma LcrAfterInitBits(lcr: bv8)
    ensures LcrAfterInit(lcr) & Dlab == 0
    ensures LcrAfterInit(lcr) & WordLength8 == WordLength8
    ensures LcrAfterInit(lcr) & 0x7C == lcr & 0x7C
  {
  }

  /** C's `!x` on a register value. */
  function LogicalNot(x: bv8): bv8
  {
    if x == 0 then 1 else 0
  }

  /** The wait condition of uart_lab__polled_get and of the receive
      interrupt, `!(LSR) & (1 << 0)`: `!` binds tighter than `&`, so it
      spins only while the whole of LSR is zero, not while bit 0 (receiver
      data ready) is clear. */
  predicate GetWaits(lsr: bv8): (w: bool)
    ensures w <==> lsr == 0
  {
    LogicalNot(lsr) & 0x01 != 0
  }

  /** The wait condition of uart_lab__polled_put, `!(LSR) & (1 << 5)`: `!`
      gives 0 or 1, and bit 5 of that is never set, so it never waits. */
  predicate PutWaits(lsr: bv8): (w: bool)
    ensures !w
  {
    LogicalNot(lsr) & 0x20 != 0
  }

  /** What the conditions were evidently meant to test differs: an LSR with
      the transmitter bits set and no received data (0x60) does not make the
      get wait although bit 0 is clear, and an LSR with received data and a
      busy transmitter (0x01) does not make the put wait although bit 5 is
      clear. */
  lemma WaitConditionsQuirk()
    ensures !GetWaits(0x60) && 0x60 & (0x01 as bv8) == 0
    ensures !PutWaits(0x01) && 0x01 & (0x20 as bv8) == 0
  {
  }

  /** The polls of a wait loop that stops at the first nonzero LSR read. */
  predicate FirstNonZero(lsrReads: seq<bv8>, n: nat)
  {
    n < |lsrReads| && lsrReads[n] != 0 && forall i :: 0 <= i < n ==> lsrReads[i] == 0
  }

  /** UART2: the registers uart_lab.c touches and the transmitted bytes. */
  class Uart2 {
    /** LPC_SC->PCONP */
    var pconp: bv32
    /** LCR */
    var lcr: bv8
    /** The divisor latches, reached at the addresses of THR and IER while
        DLAB is set. */
    var dll: uint8
    var dlm: uint8
    /** IER, at DLM's address while DLAB is clear. */
    var ier: uint8
    /** IIR, read-only, and FCR, write-only, share an address: a
        read-modify-write of FCR reads IIR. */
    var iir: bv8
    var fcr: bv8
    /** The value RBR reads. */
    var rbr: uint32
    /** The bytes written to THR, in order. */
    var transmitted: seq<uint8>

    constructor (pconp: bv32, lcr: bv8, iir: bv8, rbr: uint32)
      ensures this.pconp == pconp && this.lcr == lcr && this.iir == iir && this.rbr == rbr
      ensures dll == 0 && dlm == 0 && ier == 0 && fcr == 0 && transmitted == []
    {
      this.pconp, this.lcr, this.iir, this.rbr := pconp, lcr, iir, rbr;
      dll, dlm, ier, fcr, transmitted := 0, 0, 0, 0, [];
    }

    /** A write to the address of DLM: the divisor latch when DLAB is set,
        IER otherwise. */
    method WriteDlmAddress(v: uint8)
      modifies this`dlm, this`ier
      ensures Dlab & lcr != 0 ==> dlm == v && ier == old(ier)
      ensures Dlab & lcr == 0 ==> ier == v && dlm == old(dlm)
    {
      if Dlab & lcr != 0 {
        dlm := v;
      } else {
        ier := v;
      }
    }

    /** A write to the address of DLL: the divisor latch when DLAB is set,
        otherwise a byte for the transmitter (THR). */
    method WriteDllAddress(v: uint8)
      modifies this`dll, this`transmitted
      ensures Dlab & lcr != 0 ==> dll == v && transmitted == old(transmitted)
      ensures Dlab & lcr == 0 ==> transmitted == old(transmitted) + [v] && dll == old(dll)
    {
      if Dlab & lcr != 0 {
        dll := v;
      } else {
        transmitted := transmitted + [v];
      }
    }

    /** uart_lab__init: power UART2 on, set DLAB, write the divisor's high and
        low bytes, clear DLAB, enable the FIFOs and select 8-bit words. The
        divisor reaches the latches (and nothing reaches IER or the
        transmitter) because DLAB is set around the two writes. */
    method Init(peripheralClock: uint32, baud: uint32)
      requires (16 * baud) % TwoTo32 != 0
      modifies this`pconp, this`lcr, this`dll, this`dlm, this`ier, this`fcr, this`transmitted
      ensures pconp == old(pconp) | PconpUart2
      ensures dlm == Dlm(Divider(baud)) && dll == Dll(Divider(baud))
      ensures ier == old(ier) && transmitted == old(transmitted)
      ensures lcr == LcrAfterInit(old(lcr))
      ensures fcr == iir | FifoEnable
    {
      pconp := pconp | PconpUart2;
      var divider := Divider(baud);
      lcr := lcr | Dlab;
      WriteDlmAddress(Dlm(divider));
      WriteDllAddress(Dll(divider));
      lcr := lcr & !Dlab;
      fcr := iir | FifoEnable;
      lcr := lcr | WordLength8;
    }

    /** A read of RBR's address, `RBR & 0xFF`: the low byte of RBR while DLAB
        is clear, the DLL latch while it is set. */
    function ReadRbrAddress(): (b: uint8)
      reads this
      ensures Dlab & lcr == 0 ==> b == rbr % 256
      ensures Dlab & lcr != 0 ==> b == dll
    {
      if Dlab & lcr != 0 then dll else rbr % 256
    }

    /** uart_lab__polled_get: poll LSR (its successive values are
        `lsrReads`) until the wait condition fails, then read RBR's address.
        The source spins for ever while LSR stays zero, so the reads must
        contain a nonzero value. */
    method PolledGet(lsrReads: seq<bv8>) returns (b: uint8, polls: nat)
      requires exists j :: 0 <= j < |lsrReads| && lsrReads[j] != 0
      ensures FirstNonZero(lsrReads, polls)
      ensures Dlab & lcr == 0 ==> b == rbr % 256
      ensures Dlab & lcr != 0 ==> b == dll
    {
      polls := 0;
      while GetWaits(lsrReads[polls])
        invariant polls < |lsrReads|
        invariant forall i :: 0 <= i < polls ==> lsrReads[i] == 0
        invariant exists j :: polls <= j < |lsrReads| && lsrReads[j] != 0
        decreases |lsrReads| - polls
      {
        polls := polls + 1;
      }
      b := ReadRbrAddress();
    }

    /** uart_lab__polled_put: its wait loop never iterates (PutWaits is false
        for every LSR value), so the byte is written to THR's address at once:
        it is transmitted while DLAB is clear, and lands in DLL while DLAB is
        set. */
    method PolledPut(b: uint8)
      modifies this`dll, this`transmitted
      ensures Dlab & lcr == 0 ==> transmitted == old(transmitted) + [b] && dll == old(dll)
      ensures Dlab & lcr != 0 ==> dll == b && transmitted == old(transmitted)
    {
      WriteDllAddress(b);
    }

    /** your_receive_interrupt: when IIR reports received data, wait as the
        polled get does, read RBR's address and offer the byte to the RX
        queue without blocking (a full queue drops it); otherwise do
        nothing. At most one byte per call. */
    method ReceiveInterrupt(rxQ: BoundedQueue<uint8>, lsrReads: seq<bv8>) returns (received: Option<uint8>)
      requires rxQ.Valid()
      requires iir & IirReceiveData != 0 ==> exists j :: 0 <= j < |lsrReads| && lsrReads[j] != 0
      modifies rxQ
      ensures rxQ.Valid()
      ensures received.Some? <==> iir & IirReceiveData != 0
      ensures received.Some? && Dlab & lcr == 0 ==> received.value == rbr % 256
      ensures received.Some? && Dlab & lcr != 0 ==> received.value == dll
      ensures rxQ.items ==
        if received.Some? && |old(rxQ.items)| < rxQ.capacity then old(rxQ.items) + [received.value]
        else old(rxQ.items)
    {
      received := None;
      if iir & IirReceiveData != 0 {
        var b, _ := PolledGet(lsrReads);
        var _ := rxQ.SendFromIsr(b);
        received := Some(b);
      }
    }
  }

  /** uart__enable_receive_interrupt: the RX queue, empty, for 100 bytes. */
  method EnableReceiveInterrupt() returns (rxQ: BoundedQueue<uint8>)
    ensures fresh(rxQ) && rxQ.Valid()
    ensures rxQ.capacity == RxQueueDepth && rxQ.items == []
  {
    rxQ := new BoundedQueue<uint8>(RxQueueDepth);
  }

  /** uart_lab__get_char_from_queue: the oldest received byte, or None when
      none arrives before the timeout (nothing arrives in this model while
      waiting). */
  method GetCharFromQueue(rxQ: BoundedQueue<uint8>, timeout: uint32) returns (r: Option<uint8>)
    requires rxQ.Valid()
    modifies rxQ
    ensures rxQ.Valid()
    ensures r.None? <==> old(rxQ.items) == []
    ensures r.Some? ==> r.value == old(rxQ.items)[0] && rxQ.items == old(rxQ.items)[1..]
    ensures r.None? ==> rxQ.items == old(rxQ.items)
  {
    r := rxQ.TryReceive();
  }

  /** Two receive interrupts, for 0x141 and then 0x42 in RBR, and an
      interrupt that is not for received data: the reads from the queue give
      0x41 then 0x42 (first in, first out, only the low byte of RBR), then
      nothing. */
  method ReceiveInOrder() returns (first: Option<uint8>, second: Option<uint8>, third: Option<uint8>)
    ensures first == Some(0x41) && second == Some(0x42) && third == None
  {
    var uart := new Uart2(0, 0, IirReceiveData, 0x141);
    var rxQ := EnableReceiveInterrupt();
    var lsrValues: seq<bv8> := [0x00, 0x01];
    assert lsrValues[1] != 0;
    var _ := uart.ReceiveInterrupt(rxQ, lsrValues);
    uart.rbr := 0x42;
    lsrValues := [0x61];
    assert lsrValues[0] != 0;
    var _ := uart.ReceiveInterrupt(rxQ, lsrValues);
    uart.iir := 0x01;
    var _ := uart.ReceiveInterrupt(rxQ, []);
    first := GetCharFromQueue(rxQ, 10);
    second := GetCharFromQueue(rxQ, 10);
    third := GetCharFromQueue(rxQ, 10);
  }

  /** Writing the divisor bytes without setting DLAB first would put the high
      byte in IER and send the low byte, leaving the latches as they were. */
  method LatchWritesNeedDlab() returns (dlm: uint8, ier: uint8, transmitted: seq<uint8>)
    ensures dlm == 0 && ier == Dlm(Divider(9600)) && transmitted == [Dll(Divider(9600))]
  {
    var uart := new Uart2(0, 0, 0x01, 0);
    uart.WriteDlmAddress(Dlm(Divider(9600)));
    uart.WriteDllAddress(Dll(Divider(9600)));
    dlm, ier, transmitted := uart.dlm, uart.ier, uart.transmitted;
  }

  /** 115200 baud from any entry state: divisor 52 (0x34) in the latches, UART2
      powered, DLAB clear and 8-bit words. */
  method InitAt115200(pconp: bv32, lcr: bv8, iir: bv8) returns (u: Uart2)
    ensures fresh(u)
    ensures u.dlm == 0 && u.dll == 0x34 && u.transmitted == []
    ensures u.pconp & PconpUart2 != 0 && u.lcr & Dlab == 0 && u.lcr & WordLength8 == WordLength8
    ensures u.fcr & FifoEnable != 0
  {
    u := new Uart2(pconp, lcr, iir, 0);
    u.Init(96000000, 115200);
    DividerExact(115200);
    LcrAfterInitBits(lcr);
  }
}
