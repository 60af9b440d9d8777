# LPC40xx FreeRTOS lab firmware: GPIO dispatcher, MP3 pipeline, UART2 driver

This project models three parts of an SJ-Two (LPC40xx) FreeRTOS
application in Dafny, and proves properties of the model.

- **GPIO port-0 interrupts** (`gpio_isr.c`). Two 32-slot callback tables,
  one for rising edges and one for falling edges. `gpio0__attach_interrupt`
  fills a slot and enables the edge. `gpio0__interrupt_dispatcher` scans the
  status registers and services the first pending pin.
- **MP3 player** (`main.c`, the compiled code at lines 15–164).
  - The decoder side: the port-2 chip-select and reset helpers, the SCI
    register write, `decoder_init` and `transfer_data_block`.
  - The task side: the name and data queues; the Reader task, which streams
    a file in 512-byte blocks through one reused buffer; the Player task,
    which sends every block to the decoder; and `main` up to the scheduler.
- **UART2 lab driver** (`uart_lab.c`). Initialisation (power, baud divisor,
  line control, FIFO), the polled get and put, the receive interrupt that
  feeds a 100-byte queue, and the read from that queue.

Modules: `Wrappers` holds `Option`. `Queues` holds a bounded FIFO class for
the FreeRTOS queues. Then `GpioIsr`, `Mp3Decoder`, `Mp3Pipeline` and
`UartLab`, one per part above.

## How the hardware is represented

- **GPIO registers.** A 32-bit port-0 interrupt register is the set of its
  1 bits:
  - `reg |= (1 << pin)` adds `pin`;
  - `reg & (1 << i)` is `i in reg`;
  - a register reading zero is the empty set.

  The same holds for the output levels of port 2, where `SET` adds a pin and
  `CLR` removes it.
- **Decoder traffic.** Everything the firmware does to the decoder is an
  appended trace of events: chip-select and reset edges, `WaitDreq` for each
  `while (!decoder_is_requesting_data());`, and `Xchg(b)` for each
  `ssp2__exchange_byte(b)`. The SSP2 driver itself is not part of this model.
- **UART registers.** Registers updated through bit masks (LCR, FCR, IIR,
  LSR, PCONP) are bit-vectors. Values computed arithmetically (the divisor,
  its two bytes, RBR) are integers; `x >> 8` is `x / 256` and `x & 0xFF` is
  `x % 256`.
- **Shared register addresses.** While DLAB is clear, DLM's address is IER
  and DLL's address is THR. Init's ordering therefore shows up in the model:
  a divisor byte written without DLAB lands in IER or is transmitted. In
  the other direction, the polled put and the reads of RBR reach DLL
  whenever DLAB is set.
  `FCR |= 1` is a read-modify-write of a write-only register. Its read half
  reads IIR, which shares the address, so FCR ends up as `IIR | 1`.
- **Files and queues.**
  - A FatFs file is the sequence of its bytes.
  - Whether each `f_read` attempt fails comes from a finite list. A failed
    read moves neither the file pointer nor the buffer, and later attempts
    succeed.
  - A FreeRTOS queue is a bounded sequence. A blocking send requires room
    and a blocking receive requires an item. The interrupt-context send
    reports a full queue instead of waiting.

## Behaviour kept as the code has it

- **The clear-register write.** `IO0IntClr |= (1 << pin)` reads a
  write-only register that reads as zero. The word written is therefore
  exactly the pin's bit, and it clears both of that pin's status bits.
- **Receive wait condition.** The polled get and the receive interrupt wait
  on `!(LSR) & (1 << 0)`. Because `!` binds tighter than `&`, they spin only
  while the whole of LSR is zero, not while the data-ready bit is clear.
- **Transmit wait condition.** The polled put waits on `!(LSR) & (1 << 5)`,
  which is always 0, so it never waits. `GetWaits`, `PutWaits` and
  `WaitConditionsQuirk` state both conditions as written, and the rest of
  the model uses them.
- **Baud divisor.**
  - The divisor ignores `peripheral_clock` and uses 96 MHz.
  - `16 * baud_rate` wraps at 2^32, and the quotient is truncated to 16 bits.
  - Below 92 baud the quotient no longer fits 16 bits (`DividerTruncatedAt91`).
- **Stale tail of the last block.** The Reader sends the whole 512-byte
  struct even after a short final read. The bytes past the read count are
  left over from the previous read (`BlockContents`, `ThreeBlocksFor1025`),
  and the Player streams them too.

## Model

| member | source | states |
|---|---|---|
| Queues.BoundedQueue.constructor | projects/lpc40xx_freertos/l5_application/main.c:157-158 | xQueueCreate gives an empty queue of the given depth |
| Queues.BoundedQueue.Send | projects/lpc40xx_freertos/l5_application/main.c:120 | a send to a queue with room appends the item at the back, so the queue stays within its depth |
| Queues.BoundedQueue.SendFromIsr | projects/lpc40xx_freertos/l5_application/uart_lab.c:49 | the interrupt-context send appends exactly when the queue has room; otherwise it drops the item and leaves the queue as it was |
| Queues.BoundedQueue.Receive | projects/lpc40xx_freertos/l5_application/main.c:146 | a receive takes the oldest item and removes exactly that one (FIFO) |
| Queues.BoundedQueue.TryReceive | projects/lpc40xx_freertos/l5_application/uart_lab.c:75 | a receive with timeout gives None exactly when the queue is empty, leaving it unchanged; otherwise it gives the oldest item and removes it |
| GpioIsr.ScanSelectsUnique | projects/lpc40xx_freertos/l5_application/gpio_isr.c:25-37 | the selection rule (lowest pending pin, falling before rising) admits at most one answer for any pair of status registers |
| GpioIsr.Gpio0Interrupts.constructor | projects/lpc40xx_freertos/l5_application/gpio_isr.c:7-8 | both 32-slot tables start with every slot empty, and the enable and status registers read zero |
| GpioIsr.Gpio0Interrupts.Attach | projects/lpc40xx_freertos/l5_application/gpio_isr.c:10-19 | a rising attach overwrites only slot `pin` of the rising table and adds only bit `pin` to IO0IntEnR; any other type does the same to the falling table and IO0IntEnF; the other table and register are unchanged |
| GpioIsr.Gpio0Interrupts.Scan | projects/lpc40xx_freertos/l5_application/gpio_isr.c:25-37 | the scan returns the lowest pin with a falling or rising status bit set, on the falling edge exactly when its falling bit is set, with that edge's slot for the pin; it returns None only when both status registers are zero |
| GpioIsr.Gpio0Interrupts.Dispatch | projects/lpc40xx_freertos/l5_application/gpio_isr.c:21-41 | one dispatch services the scan's selection, with that selected slot as the only handler; it writes only that pin's bit to IO0IntClr and clears only that pin's status bits, keeping every other pending pin; with nothing pending, nothing changes |
| GpioIsr.TwoPinsPending | projects/lpc40xx_freertos/l5_application/gpio_isr.c:25-40 | with falling on pin 2 and rising on pin 9 pending, successive dispatches service pin 2, then pin 9, then nothing |
| GpioIsr.RisingHandlerIgnoresFalling | projects/lpc40xx_freertos/l5_application/gpio_isr.c:26-28 | a pending falling edge runs the falling slot of the pin, never the rising callback attached to it |
| GpioIsr.LastAttachWins | projects/lpc40xx_freertos/l5_application/gpio_isr.c:12-14 | attaching twice to the same pin and edge keeps the second callback, leaves the other table empty and enables only that pin |
| Mp3Decoder.Hi | projects/lpc40xx_freertos/l5_application/main.c:74 | the byte sent for `data >> 8` is the 16-bit value divided by 256, its high byte |
| Mp3Decoder.Lo | projects/lpc40xx_freertos/l5_application/main.c:75 | the byte sent for `data`, truncated to uint8_t, is what remains of the value once its high byte is taken out |
| Mp3Decoder.HiLoRoundTrip | projects/lpc40xx_freertos/l5_application/main.c:74-75 | the high byte `data >> 8` and the low byte (truncation to uint8_t) together give the 16-bit value back |
| Mp3Decoder.SciWriteParses | projects/lpc40xx_freertos/l5_application/main.c:67-81 | an SCI write is a DREQ wait and SCI select, then opcode 0x02, the address, the high and the low data byte, then a DREQ wait and SCI deselect; the address and value are recovered from it |
| Mp3Decoder.SciWriteNoSdi | projects/lpc40xx_freertos/l5_application/main.c:67-81 | an SCI write never selects or deselects the data interface |
| Mp3Decoder.InitSequence | projects/lpc40xx_freertos/l5_application/main.c:82-103 | decoder_init deselects SCI and SDI, drives reset low then high, then writes (0x00, 0x4800), (0x0B, 0x0000) and (0x03, 0x6000), in that order, and nothing else; after the deselects it never touches SDI |
| Mp3Decoder.ByteFrameDelivers | projects/lpc40xx_freertos/l5_application/main.c:133-138 | one payload byte's events put exactly that byte on the bus, inside an SDI select/deselect, and involve no SCI select |
| Mp3Decoder.TransferTraceFrames | projects/lpc40xx_freertos/l5_application/main.c:130-140 | streaming n bytes gives 4n events, and events 4i to 4i+3 are byte i's own DREQ wait, SDI select, exchange and deselect, so no two bytes interleave |
| Mp3Decoder.TransferTraceLength | projects/lpc40xx_freertos/l5_application/main.c:131 | streaming n bytes gives exactly 4n events |
| Mp3Decoder.TransferDelivers | projects/lpc40xx_freertos/l5_application/main.c:130-140 | the bytes the decoder receives from a transfer are the data bytes, in ascending index order, and SCI is never selected |
| Mp3Decoder.ExchangedAppend | projects/lpc40xx_freertos/l5_application/main.c:137 | the bytes on the bus of two traces one after the other are the first trace's bytes followed by the second's |
| Mp3Decoder.Decoder.SciSelect | projects/lpc40xx_freertos/l5_application/main.c:26-28 | SCI select clears port-2 pin 2 only |
| Mp3Decoder.Decoder.SciDeselect | projects/lpc40xx_freertos/l5_application/main.c:30-32 | SCI deselect sets port-2 pin 2 only |
| Mp3Decoder.Decoder.SdiSelect | projects/lpc40xx_freertos/l5_application/main.c:33-35 | SDI select clears port-2 pin 5 only |
| Mp3Decoder.Decoder.SdiDeselect | projects/lpc40xx_freertos/l5_application/main.c:37-39 | SDI deselect sets port-2 pin 5 only |
| Mp3Decoder.Decoder.Reset | projects/lpc40xx_freertos/l5_application/main.c:40-42 | reset clears port-2 pin 9 only |
| Mp3Decoder.Decoder.Restart | projects/lpc40xx_freertos/l5_application/main.c:43-45 | restart sets port-2 pin 9 only |
| Mp3Decoder.Decoder.WaitForDreq | projects/lpc40xx_freertos/l5_application/main.c:68-70 | a busy wait on DREQ (port-2 pin 7) is one wait event and changes no pin |
| Mp3Decoder.Decoder.ExchangeByte | projects/lpc40xx_freertos/l5_application/main.c:137 | one SPI exchange puts its byte on the bus and changes no pin |
| Mp3Decoder.Decoder.WriteRegister | projects/lpc40xx_freertos/l5_application/main.c:67-81 | write_16bits_on_decoder produces exactly the SCI write frame and leaves pin 2 high |
| Mp3Decoder.Decoder.Init | projects/lpc40xx_freertos/l5_application/main.c:82-103 | decoder_init produces exactly the init sequence and leaves pins 2, 5 and 9 high |
| Mp3Decoder.Decoder.TransferBlock | projects/lpc40xx_freertos/l5_application/main.c:130-140 | transfer_data_block produces the framed events of all 512 bytes in ascending order and leaves pin 5 high |
| Mp3Pipeline.BlockCount | projects/lpc40xx_freertos/l5_application/main.c:116-122 | a file of L bytes is sent as ceil(L / 512) blocks |
| Mp3Pipeline.ReadInto | projects/lpc40xx_freertos/l5_application/main.c:118 | one successful f_read into the 512-byte struct: position i holds the file's i-th remaining byte where one remains, and keeps the struct's previous byte past the end of the file |
| Mp3Pipeline.Reassemble | projects/lpc40xx_freertos/l5_application/main.c:116-122 | the valid prefixes of the blocks sent, concatenated, are the file contents |
| Mp3Pipeline.BlockContents | projects/lpc40xx_freertos/l5_application/main.c:109-120 | block k carries file bytes from 512k on, as many as remain up to 512, at its start; the rest of the block is what the previous block (or the buffer before the file) held there |
| Mp3Pipeline.ThreeBlocksFor1025 | projects/lpc40xx_freertos/l5_application/main.c:118-120 | a 1025-byte file is sent as three blocks; the last carries the final file byte at index 0 and the second block's stale bytes at indices 1–511 |
| Mp3Pipeline.Reader.constructor | projects/lpc40xx_freertos/l5_application/main.c:109 | the Reader starts with one 512-byte buffer holding the given bytes, nothing sent and no file-system calls |
| Mp3Pipeline.Reader.StreamFile | projects/lpc40xx_freertos/l5_application/main.c:116-122 | reading a whole open file, with any number of failed reads, sends exactly the file's blocks in file order; each is the entire reused buffer after a successful read; the buffer ends with the last read's content |
| Mp3Pipeline.Reader.ServeRequest | projects/lpc40xx_freertos/l5_application/main.c:112-127 | a request takes the oldest name; a file that opens is streamed block by block and then closed; a name that fails to open sends nothing, leaves the buffer alone and is never closed |
| Mp3Pipeline.PlayerIteration | projects/lpc40xx_freertos/l5_application/main.c:145-148 | the Player takes the oldest block and transfers the whole of it before anything else |
| Mp3Pipeline.PlayDelivers | projects/lpc40xx_freertos/l5_application/main.c:142-148 | playing a run of blocks puts every byte of every block, stale ones included, on the data interface in order |
| Mp3Pipeline.PlayTraceLength | projects/lpc40xx_freertos/l5_application/main.c:131 | every block played is 4 × 512 decoder events |
| Mp3Pipeline.Start | projects/lpc40xx_freertos/l5_application/main.c:151-158 | main initialises the decoder, then creates an empty name queue of depth 1 and an empty data queue of depth 5 |
| Mp3Pipeline.RunPipeline | projects/lpc40xx_freertos/l5_application/main.c:120-148 | under any interleaving of Reader and Player steps over the depth-5 queue, the Player plays exactly the blocks sent, each once and in order, and the decoder sees one whole block's transfer after another |
| Mp3Pipeline.FailedOpenThenValid | projects/lpc40xx_freertos/l5_application/main.c:113-126 | after a name that fails to open, the Reader streams the next name's file in full, whatever read failures either request meets; the calls are the failed open, then the open and the close |
| UartLab.Divider | projects/lpc40xx_freertos/l5_application/uart_lab.c:14 | the stored divisor is the 96 MHz quotient by the wrapped 16 × baud, reduced modulo 2^16: never above that quotient and congruent to it modulo 2^16 |
| UartLab.Dlm | projects/lpc40xx_freertos/l5_application/uart_lab.c:17 | DLM is the divisor's high byte: DLM × 256 ≤ divisor < (DLM + 1) × 256 |
| UartLab.Dll | projects/lpc40xx_freertos/l5_application/uart_lab.c:18 | DLL is the divisor's low byte: DLM × 256 + DLL is the divisor |
| UartLab.DividerExact | projects/lpc40xx_freertos/l5_application/uart_lab.c:14 | for 92 ≤ baud < 2^28 the stored divisor is 96 MHz / (16 × baud), the largest divisor whose baud clock does not exceed 96 MHz |
| UartLab.DividerTruncatedAt91 | projects/lpc40xx_freertos/l5_application/uart_lab.c:14 | at 91 baud the quotient 65934 is truncated to 398 |
| UartLab.DivisorSplitRoundTrip | projects/lpc40xx_freertos/l5_application/uart_lab.c:17-18 | DLM × 256 + DLL is the divisor, and every byte pair is the split of exactly one divisor |
| UartLab.LcrAfterInit | projects/lpc40xx_freertos/l5_application/uart_lab.c:15-22 | the LCR value left by setting DLAB, clearing it and ORing in 0b11: DLAB is clear, and every other bit is the entry value's with the two word-length bits set |
| UartLab.LcrAfterInitBits | projects/lpc40xx_freertos/l5_application/uart_lab.c:15-22 | after init DLAB is clear, the word-length bits are 0b11 and LCR bits 2–6 are those found on entry |
| UartLab.GetWaits | projects/lpc40xx_freertos/l5_application/uart_lab.c:28 | the get's wait condition, as written, holds exactly when the whole LSR is zero |
| UartLab.PutWaits | projects/lpc40xx_freertos/l5_application/uart_lab.c:35 | the put's wait condition, as written, never holds |
| UartLab.WaitConditionsQuirk | projects/lpc40xx_freertos/l5_application/uart_lab.c:28-35 | LSR 0x60 (no received data) does not hold the get back, and LSR 0x01 (transmitter busy) does not hold the put back |
| UartLab.Uart2.WriteDlmAddress | projects/lpc40xx_freertos/l5_application/uart_lab.c:17 | a write to DLM's address reaches the latch only with DLAB set, and IER otherwise |
| UartLab.Uart2.WriteDllAddress | projects/lpc40xx_freertos/l5_application/uart_lab.c:18 | a write to DLL's address reaches the latch only with DLAB set, and is transmitted otherwise |
| UartLab.Uart2.Init | projects/lpc40xx_freertos/l5_application/uart_lab.c:12-24 | init powers UART2 (PCONP bit 24), puts the divisor's bytes in DLM and DLL with nothing reaching IER or THR, leaves LCR as the entry value with DLAB clear and 8-bit words, and sets FCR to IIR with bit 0 set |
| UartLab.Uart2.PolledGet | projects/lpc40xx_freertos/l5_application/uart_lab.c:27-32 | the get polls LSR up to and including its first nonzero value, then reads RBR's address: the low byte of RBR with DLAB clear, the DLL latch with DLAB set |
| UartLab.Uart2.PolledPut | projects/lpc40xx_freertos/l5_application/uart_lab.c:34-39 | the put writes its byte to THR's address at once: with DLAB clear it is appended to the transmitted bytes and DLL is kept; with DLAB set it lands in DLL and nothing is transmitted |
| UartLab.Uart2.ReadRbrAddress | projects/lpc40xx_freertos/l5_application/uart_lab.c:31 | `RBR & 0xFF` (also read at line 48) yields RBR's low byte while DLAB is clear and the DLL latch while DLAB is set |
| UartLab.Uart2.ReceiveInterrupt | projects/lpc40xx_freertos/l5_application/uart_lab.c:42-56 | the interrupt reads a byte exactly when IIR bit 2 is set; that byte is what RBR's address reads (RBR's low byte with DLAB clear, DLL with DLAB set) and goes to the back of the RX queue if it has room (dropped otherwise); at most one byte per call |
| UartLab.EnableReceiveInterrupt | projects/lpc40xx_freertos/l5_application/uart_lab.c:60-70 | the RX queue is created empty with room for 100 bytes |
| UartLab.GetCharFromQueue | projects/lpc40xx_freertos/l5_application/uart_lab.c:74-76 | the read gives the oldest received byte and removes it, or None, without change, when nothing is queued |
| UartLab.ReceiveInOrder | projects/lpc40xx_freertos/l5_application/uart_lab.c:44-75 | bytes received by two interrupts come out of the queue first in, first out, as RBR's low bytes, and an interrupt without received data adds nothing |
| UartLab.LatchWritesNeedDlab | projects/lpc40xx_freertos/l5_application/uart_lab.c:15-19 | without DLAB the divisor's high byte would land in IER and its low byte would be transmitted, leaving DLM unwritten |
| UartLab.InitAt115200 | projects/lpc40xx_freertos/l5_application/uart_lab.c:12-24 | from any PCONP, LCR and IIR (the other registers fixed by the constructor; `Uart2.Init` states the general case), init for 115200 baud latches divisor 0x0034, powers UART2, clears DLAB, selects 8-bit words and enables the FIFO |

## Left out

- Exchanges go through `ssp2__exchange_byte` of the library SSP2 driver (`ssp2.h`, included at `main.c:7`), which is not part of this model. An exchange is one trace event, and the byte it returns is never used by the modelled code. `ssp2_lab.c` defines other functions (`ssp2__init`, `ssp2_exchange_byte`) that only commented-out code calls, so the compiled program never runs it.
- Task creation, the scheduler, priorities and preemption (`main.c:160-162`) are not modelled. `RunPipeline` takes the interleaving of Reader and Player steps as a parameter instead.
- Blocking is not modelled. A blocking send or receive requires room or an item. The Reader's `while (1)` loop is one `ServeRequest` per name, and the Player's loop is one `PlayerIteration` per block.
- Interrupt preemption and real concurrency are not modelled. Every step runs to completion.
- `delay__ms`, `printf`, the pin-mux setup in `pin_configuration_for_decoder` (`main.c:47-59`), and `ssp2__initialize` are hardware set-up or output with no state the model uses.
- `sj2_cli__init` starts the command-line shell (its handlers come from `cli_handlers.h`, `main.c:2`). The shell submits song names to `songName_Queue` and is not modelled; the names a Reader serves are given to the model instead.
- `lpc_peripheral__enable_interrupt` and the `IER |= 1` write in `uart__enable_receive_interrupt` (`uart_lab.c:62,66`) are left out. The interrupt registration is a foreign call, and IER is not read by the modelled code.
- The undefined `bool` results of `uart_lab__polled_get` and `uart_lab__polled_put` have no value to model. The get's byte is returned instead of stored through the pointer.
- FatFs internals and its error codes beyond success or failure are left out. A file is its bytes. A request names an existing file exactly when its name is in the file map. `f_close` cannot fail.
- Mp3Pipeline.Reader.StreamFile: the failed-read outcomes are a finite list, so the model does not capture a read that fails for ever. The source then loops without end.
- UartLab.Uart2.PolledGet: requires that some LSR read is nonzero, because the source spins for ever otherwise. It reads RBR's address once and does not model the receive FIFO popping.
- UartLab.Uart2.ReceiveInterrupt: when IIR reports received data it requires some nonzero LSR read, because the wait at `uart_lab.c:45-47` spins for ever otherwise. This excludes no real case: received data in the FIFO sets LSR bit 0, so LSR is then nonzero and the wait ends at once.
- UartLab.Divider: requires that `16 * baud_rate`, wrapped at 2^32, is nonzero, and so does UartLab.Uart2.Init, which computes the divisor. The source divides by zero there (`uart_lab.c:14`), which C leaves undefined, so the model does not cover baud rates whose product wraps to zero.
- UartLab.Uart2.PolledPut: the wait loop is not modelled as a loop, since its condition is false for every LSR value (`PutWaits`).
- UartLab.GetCharFromQueue: the timeout is a parameter only. Nothing can arrive while waiting in a sequential model.
- GpioIsr.Gpio0Interrupts.Dispatch: the handler is returned for the caller to run, and its effects are not modelled. Where the source's behaviour is undefined the model picks a harmless outcome instead. With no status bit set, `gpio0__interrupt_dispatcher` calls an uninitialised pointer and clears an uninitialised pin (`gpio_isr.c:39-40`); the model returns `None` and clears nothing. A pending pin whose slot was never attached makes the source call a null pointer at `gpio_isr.c:39`, so it never reaches the clear at line 40; the model returns that pin with handler `None` (see `RisingHandlerIgnoresFalling`) and still clears it, a fallback the source does not have.
- `uart_lab__init`, `uart_lab__polled_get`, `uart_lab__polled_put` and `uart__enable_receive_interrupt` take a `uart_number_e` argument and ignore it (`uart_lab.c:12,27,34,60`); they always drive UART2, and the model has UART2 only.
- The commented-out code in `main.c` after line 164 and in `uart_lab.c` after line 77 is never compiled and is not modelled.
