# The MCP33131 streamer, as a verified model

`mcp331131_streaming` samples an ADC through the SPI of a Raspberry Pi. A DMA program of ten control blocks, lying in
the same uncached memory that the DMA writes, triggers the SPI, feeds it dummy words, and stores what comes back in
two ping-pong buffers of `nsamp` words, each with a time stamp and a completion flag. A polling program drains the two
buffers without any lock, notices overruns by the second flag, and sends each block as a framed, checksummed datagram
or as a line of text. This project models both sides and proves what comes out at the other end.

* `Layout`, `DmaEngine`: the structure in memory, and the controller that interprets it one bus word a step, for three
  channels in any interleaving.
* `DmaProgram`, `DmaRuns`: what every step and every run of the DMA program keeps; how it starts, goes round, stops,
  and triggers the SPI.
* `PingPong`: the two flags as arithmetic on block numbers, and exactly when a clearing of flags is in time.
* `Schedules`, `Snapshots`, `Polling`, `Calls`: the DMA as the environment of the program. A schedule says which steps
  the channels take before each access of the program to the shared memory and during each sleep; it is an arbitrary
  input. What a word of the shared memory holds, what a pass over the buffers, a whole call and a round of the FIFO loop
  find, and where they end, are functions of the schedule and of the streams received, whatever the timing.
* `Sharing`, `Streamer`: the polling program as a class that updates the globals of `rpi_adc_stream.c` in place. Every
  access to the shared memory, down to single words of the `memcpy`, is one position in the schedule.
* `History`, `Datagrams`, `Lines`: consequences for whole runs: order, no silent loss, conservation, the serial history of
  the UDP stream, the lines of the FIFO stream.
* `Hazards`: runs that show what the protocol does not prevent.
* `Packet`, `Csv`, `RawFormat`: the three output formats, each with an independent reader.
* `Gpio`, `Setup`: the packed function-select registers in their two versions, the SPI divider search, the page sizes.

The main results are `Streamer.UdpProgram`, `Streamer.FifoProgram` and `Streamer.SingleProgram`, the three ways in which
`main` streams, each for every schedule:

* No choice is left. For every schedule, steady or not, each call takes and discards what the schedule and the streams
  make it take, word for word, and ends at the access they make it end (`Calls.Determined`, and `Calls.OneRun`: there is
  only one such run). The lines of the FIFO stream are a function of the schedule, the streams and the reader
  (`Calls.RoundsOf`, `Lines.LinesOf`).
* If every clearing of flags that the schedule brings about is in time, every datagram carries exactly one whole block of
  the SPI stream, or nothing yet, and every line is that of one whole block, in order and none twice. In time means no
  second completion between the test of the other flag and the clearing, or, for an overrun, what `PingPong.ResetBoth`
  says; the numbers of completions around each clearing are part of where a call ends. It is enough that no more than one
  block completes between two accesses that follow each other (`Schedules.SteadyUpTo`), or during each call
  (`Calls.AtMostOne`).
* If two passes and a sleep fit into the time of one block (`Schedules.Quick`), datagram c carries block c under serial
  number c mod 65536, line i is that of block i for a reader that is always there, and nothing is ever lost.
  `Hazards.AmpleTime` and `Hazards.AmpleAccesses` are such schedules.
* Nothing is left lying. As long as the clearings are in time, a call, or a round with the FIFO open, accounts for every
  block that was complete as it began (`Polling.PassCatchesUp`). Each block taken is written if the reader takes
  everything and, in lockstep, has always emptied the FIFO; in lockstep with a reader that never has, nothing is written.
* The single shot prints its line exactly if the block was complete at the first look.

The ghost state of `Streamer.Adc` counts completions: `base` is the first block not accounted for, `landed` counts
completions that hit a flag already set, `history` lists what was done with every block, and `windows` records how many
blocks were complete when the flags around each clearing were tested and cleared. `Adc.Here` is all of this with the two
flags and the position in the schedule, and every method says where it ends as a function of where it starts. So `Timely`,
that every clearing so far was in time, is a fact about the schedule and no choice of the program.

`PingPong.ClearOne`, `PingPong.ResetBoth` and `Polling.LookSettles` show that this bound is exactly what one look needs.
`Hazards` has the runs beyond it: under one schedule the first call takes a block that is no block of the stream
(`Hazards.TornTaken`), under another it takes blocks 0 and 3 as 0 and 1 with no overrun seen (`Hazards.LostSilently`).

Where the comments and the code of the repository differ, the model follows the code:

* The comment at `rpi_adc_stream.c:721` says that the checksum starts from the serial number. It covers the sync words
  and the size too (`Packet.HeaderSum`, `Packet.PacketRoundTrip`).
* `slen` in `adc_stream_packet` stays 0, so one call may take two blocks, and the first of them is never sent
  (`Polling.TwoBlocks`, `Hazards.FirstCallIs`, `Datagrams.SkippedBlock`). After an overrun the call still reports a full
  length, and the buffer as it was before is sent again (`Datagrams.SerialHistory`).
* `ADC_RAW_VAL` is "swap 2 lower bytes" by its comment, but is truncated to 16 bits only where it is stored in a
  `uint16_t`; the text line prints a voltage that is right exactly when the low byte is zero (`Csv.VoltageOfSample`).
* The raw format divides a signed value with truncation, so its high byte is one too high for most negative values
  (`RawFormat.RawPairValue`).
* `INP_GPIO` must come before `OUT_GPIO` and `SET_GPIO_ALT`, as the header says; `Gpio.WithoutInp` says exactly when it
  could have been omitted.

## Model

| member | source | states |
|---|---|---|
| Layout.BusMapping | mcp331131_streaming/rpi_dma_utils.h:80 | The address macro, in wrapping 32-bit arithmetic, sends every word of the structure to its place in the bus memory, whichever of the two mappings is higher |
| Layout.PacedBlocks | mcp331131_streaming/rpi_adc_stream.c:520-534 | A reader of the transfer information words finds that the receive blocks are paced by SPI receive requests at their source, the transmit block by SPI transmit requests and the trigger blocks by PWM requests at their destinations, which addresses are incremented, and that writes are waited for |
| DmaProgram.FetchIs | mcp331131_streaming/rpi_adc_stream.c:520-537 | Loading any control block of an intact program from the shared memory starts exactly the transfer that adc_dma_init described |
| DmaProgram.TxStep | mcp331131_streaming/rpi_adc_stream.c:530 | A step of the transmit channel changes nothing but that channel, keeps the invariant, and never stops it |
| DmaProgram.PwmStep | mcp331131_streaming/rpi_adc_stream.c:532-534 | A step of the trigger channel changes nothing but that channel, keeps the invariant, and never stops it |
| DmaProgram.RxStamp | mcp331131_streaming/rpi_adc_stream.c:522-525 | The first control block of each half round stores one timer word in the time stamp of its buffer and nowhere else |
| DmaProgram.RxSample | mcp331131_streaming/rpi_adc_stream.c:523-526 | The second stores each SPI word at the next place of its buffer, for every nsamp up to 1024 |
| DmaProgram.RxStatus | mcp331131_streaming/rpi_adc_stream.c:524-527 | The third stores the SPI status in the flag of its buffer |
| DmaProgram.RxStep | mcp331131_streaming/rpi_adc_stream.c:521-527 | Every step of the receive channel keeps the invariant and goes to the next of the six stages; one block is complete each half round; nothing but result words changes |
| DmaProgram.StepRely | mcp331131_streaming/rpi_adc_stream.c:501-550 | One step of any channel keeps the invariant (program intact, buffers equal to the newest stream words, channels within their control blocks) and looks to the polling program only as `Rely` says: streams grow, a flag is set only by the completion of a block of its parity |
| DmaProgram.RunRely | mcp331131_streaming/rpi_adc_stream.c:501-550 | Over every interleaving of the three channels the invariant holds, and every completed block either sets a clear flag or lands on a set one |
| DmaRuns.ProgramPreservesItself | mcp331131_streaming/rpi_adc_stream.c:501-549 | For every nsamp in 1..1024 and every interleaving, no access leaves the memory block, control blocks and constants stay word for word what adc_dma_init wrote, and only time stamps, flags and the first nsamp words of each buffer change |
| DmaRuns.LoadedInv | mcp331131_streaming/rpi_adc_stream.c:513-542 | The structure that adc_dma_init copies satisfies the invariant, with both flags clear |
| DmaRuns.QuietRegister | mcp331131_streaming/rpi_dma_utils.c:248-250 | The first three writes of start_dma change at most the address register of an idle channel |
| DmaRuns.ActiveRegister | mcp331131_streaming/rpi_dma_utils.c:251 | The last write of start_dma puts the channel at the start of its first control block |
| DmaRuns.RxAdvance | mcp331131_streaming/rpi_adc_stream.c:521-527 | Every step of a started receive channel is one step of progress; only a single shot ever halts |
| DmaRuns.RxCycles | mcp331131_streaming/rpi_adc_stream.c:521-527 | In every interleaving the receive channel advances by exactly its own steps, through its six control blocks for ever or to the end of a single shot |
| DmaRuns.BlocksOfSteps | mcp331131_streaming/rpi_adc_stream.c:521-527 | The number of completed blocks is the number of own steps over nsamp + 5 |
| DmaRuns.SingleShot | mcp331131_streaming/rpi_adc_stream.c:540-541 | With `single`, the channel runs for exactly nsamp + 5 steps, moves nsamp + 2 words and stands still, with the first nsamp stream words, their time stamp and the flag in the first buffer; second buffer, time stamp and flag are never touched |
| DmaRuns.MovesOn | mcp331131_streaming/rpi_adc_stream.c:521-527 | From every reachable state a started channel that is not single-shot can move another word |
| DmaRuns.ClearedInv | mcp331131_streaming/rpi_adc_stream.c:638 | Clearing a flag at any moment keeps the invariant and the other flag |
| DmaRuns.FinishedBlock | mcp331131_streaming/rpi_adc_stream.c:522-527 | The buffer that was completed last and its time stamp hold all of that block, until the buffer's next turn |
| DmaRuns.OwedBlock | mcp331131_streaming/rpi_adc_stream.c:625-634 | If exactly one flag is set and it is that of a block still owed, it is the last completed block, and buffer and time stamp are exactly stream words k*nsamp up to (k+1)*nsamp and clock word k |
| DmaRuns.UnreadableIsTorn | mcp331131_streaming/rpi_adc_stream.c:625-638 | If instead exactly one flag is set and it is not that of the last completed block, its buffer is the words received of the block in progress and then the rest of an older one; when that block is partly received, 0 < Filled < nsamp, this is no block of a stream of distinct words |
| DmaRuns.FillingBuffer | mcp331131_streaming/rpi_adc_stream.c:523-526 | The buffer being filled holds the new words and then what is left of the block before last |
| DmaRuns.ActivationsAreArmed | mcp331131_streaming/rpi_adc_stream.c:531-534 | Over any run, every SPI activation of the trigger channel writes 0x180, and comes right after a transfer length of 2 and a PWM word two below the range, modulo 2^32, both written since the activation before it |
| DmaRuns.ConstantsStay | mcp331131_streaming/rpi_adc_stream.c:513-518 | At any time the memory holds the sample length 2, the PWM word two below the range, the activation word 0x180, the words to transmit, of which the second depends on the number of channels, and the mask of pin 14 |
| DmaRuns.DummiesSent | mcp331131_streaming/rpi_adc_stream.c:530 | The transmit channel writes 0xd0 to the SPI data register and nothing else, however many channels are asked for |
| PingPong.ReadableIff | mcp331131_streaming/rpi_adc_stream.c:625-636 | Two flags and a number of completed blocks make sense (one flag set is the last block's) exactly when they are explained by some first block still waiting |
| PingPong.ClearOne | mcp331131_streaming/rpi_adc_stream.c:632-638 | Clearing the one set flag leaves flags that tell which blocks wait if and only if at most one block completed between the test and the clearing; exactly for an even number of late completions the flags are not even readable |
| PingPong.ResetBoth | mcp331131_streaming/rpi_adc_stream.c:632-636 | After both flags were cleared, flag 1 first, the flags are readable if and only if at most one block completed between the two clearings or the number of completed blocks is then even |
| Schedules.AdmittedFeasible | mcp331131_streaming/rpi_adc_stream.c:501-550 | Every feasible run of the three channels is a schedule's |
| Schedules.StepsMakeBlocks | mcp331131_streaming/rpi_adc_stream.c:521-527 | The blocks completed are a function of the receive channel's own steps alone, whatever the other channels and the program do |
| Schedules.QuickIsSteady | mcp331131_streaming/rpi_adc_stream.c:632-638 | A schedule that leaves time for two passes and a sleep never completes two blocks between two accesses |
| Snapshots.SeesWord | mcp331131_streaming/rpi_adc_stream.c:521-527 | Every word of both buffers is, at every moment, a function of the receive channel's own steps and the SPI stream: a word of the block in progress, of the block before, or of the one before that |
| Snapshots.SeesStamp | mcp331131_streaming/rpi_adc_stream.c:521-527 | So is each time stamp, of the timer stream |
| Snapshots.StepsMakeStreams | mcp331131_streaming/rpi_adc_stream.c:521-527 | The lengths of both streams are functions of these steps |
| Polling.TwoBlocks | mcp331131_streaming/rpi_adc_stream.c:726-733 | A pass of adc_stream_packet takes something from both buffers if and only if a block of buffer 0 was complete as its flag was read, the next was not complete as states[1] was tested, and was complete as states[1] was read again two accesses later |
| Polling.EmptyPass | mcp331131_streaming/rpi_adc_stream.c:731-735 | A pass finds nothing exactly if neither flag is up at its two looks, and is then two accesses long |
| Polling.SettledLook | mcp331131_streaming/rpi_adc_stream.c:627-636 | As long as the flags tell which blocks wait, a look at a buffer finds nothing if no block of its parity waits, an overrun if two blocks are complete when the other flag is tested, nsamp + 2 accesses later, and else the block that waits |
| Polling.LookSettles | mcp331131_streaming/rpi_adc_stream.c:627-638 | A look that starts with flags that tell which blocks wait ends with such flags if and only if it adds no late window |
| Polling.PassCatchesUp | mcp331131_streaming/rpi_adc_stream.c:627-641 | A pass that starts with flags that tell which blocks wait accounts for every block complete as it starts, by taking it or giving it up |
| Polling.OneUpIs | mcp331131_streaming/rpi_adc_stream.c:627-632 | A pass takes one block from a buffer as the first thing it finds exactly if it sees that buffer's flag set, no flag before it, and the other still clear when it is tested |
| Polling.WholeParity | mcp331131_streaming/rpi_adc_stream.c:627-632 | A block found whole in buffer n is the one that waits, and has parity n |
| Polling.LooksNext | mcp331131_streaming/rpi_adc_stream.c:733-799 | One more look of a pass, in its events and in where it is: both are those of the schedule and the streams, whatever the DMA did meanwhile |
| Polling.QuickPass | mcp331131_streaming/rpi_adc_stream.c:729-804 | With two passes and a sleep for each block, a pass finds the one block that waits or nothing, never an overrun and never two blocks |
| Calls.OneCall | mcp331131_streaming/rpi_adc_stream.c:729-804 | The schedule determines where a call ends: position in the schedule, first block not accounted for, flags, and the completions around each clearing |
| Calls.OneRun | mcp331131_streaming/rpi_adc_stream.c:312-316 | Two runs of the same number of calls on the same schedule and streams take and discard the same, word for word, and end at the same place after every call |
| Calls.QuickCall | mcp331131_streaming/rpi_adc_stream.c:729-804 | With time for two passes and a sleep for each block, a call takes exactly the next block |
| Calls.CallInTime | mcp331131_streaming/rpi_adc_stream.c:632-638 | If at most one block completes during a call, its clearings of flags are in time |
| Calls.RunInTime | mcp331131_streaming/rpi_adc_stream.c:312-316 | If at most one block completes during each call of a run, all its clearings of flags are in time |
| Calls.CallCatchesUp | mcp331131_streaming/rpi_adc_stream.c:729-804 | So does a call, for the blocks complete as it starts |
| Calls.PassPrints | mcp331131_streaming/rpi_adc_stream.c:627-650 | A pass of adc_stream_csv prints a block exactly if, in lockstep, its buffer's turn finds the FIFO empty; it is then the last one found, and none before it was printed; unless in lockstep, or if the first buffer's turn finds room, a pass finds at most one |
| Calls.OneFlag | mcp331131_streaming/rpi_adc_stream.c:627-650 | If one flag is seen set and the other still clear when it is tested, the pass finds that block and prints it, in lockstep if there is room |
| Calls.RoundDoes | mcp331131_streaming/rpi_adc_stream.c:557-578 | A round with the FIFO open, or opened by it: what it takes, when it writes a line, when it sleeps, when it closes the FIFO, and that it accounts for what was complete before |
| Calls.QuickRound | mcp331131_streaming/rpi_adc_stream.c:553-579 | With ample time and a reader that is always there, a round of the FIFO loop takes and prints the next block or finds none |
| Hazards.LateClearing | mcp331131_streaming/rpi_adc_stream.c:632-638 | From every streaming state with one block waiting there is a feasible run after which clearing its flag leaves flags that cannot be read |
| Hazards.TornCopy | mcp331131_streaming/rpi_adc_stream.c:627-638 | And it goes on to a state in which exactly one flag is set and its buffer is no block of the stream, for every number of words of the block in progress |
| Hazards.TornFromStart | mcp331131_streaming/rpi_adc_stream.c:625-638 | That happens to a stream just started: one block arrives, its flag is seen and the other tested clear, two more complete before the clearing, and the buffer found next is torn |
| Hazards.FirstCallTakesTwo | mcp331131_streaming/rpi_adc_stream.c:726-733 | There is a steady schedule under which the first pass takes two whole blocks |
| Hazards.FirstCallIs | mcp331131_streaming/rpi_adc_stream.c:312-316 | Under it the first call of the UDP program takes two blocks, so one is overwritten before it is sent |
| Hazards.LostSilently | mcp331131_streaming/rpi_adc_stream.c:627-638 | There is a schedule under which the first call takes blocks 0 and 3 as if they were blocks 0 and 1 and leaves both flags clear: two blocks are lost and no overrun is seen |
| Hazards.TornTaken | mcp331131_streaming/rpi_adc_stream.c:627-638 | For every number q of words, there is a schedule under which the first call takes as block 1 the first q words of block 3 and the rest of block 1, which is no block of a stream of distinct words |
| Hazards.AmpleTime | mcp331131_streaming/rpi_adc_stream.c:801-802 | Schedules with time for two passes and a sleep for each block exist |
| Hazards.AmpleAccesses | mcp331131_streaming/rpi_adc_stream.c:801-802 | There is ample time if a step comes with every second access and the sleeps take no time |
| Sharing.KeepPace | mcp331131_streaming/rpi_adc_stream.c:501-550 | Any run keeps the receive channel exactly where the schedule's steps put it, and one with no more than one block's steps completes at most one block |
| Sharing.StartsLinked | mcp331131_streaming/rpi_adc_stream.c:542 | With the image in memory, all channels can be started and both flags are clear |
| Sharing.PollShrinks | mcp331131_streaming/rpi_adc_stream.c:729-804 | After an empty poll and a sleep there is a flag, or no block was completed |
| Sharing.AcceptFits | mcp331131_streaming/rpi_adc_stream.c:638 | Taking the owed block, in time, leaves the flags to the blocks after it and conserves blocks |
| Sharing.ResetFits | mcp331131_streaming/rpi_adc_stream.c:634 | Discarding, in time, leaves the flags to what completed during the discarding, gives up two blocks or more, and conserves blocks |
| Streamer.Adc.StartDma | mcp331131_streaming/rpi_dma_utils.c:246-252 | Four register writes in this order start one channel for good, while channels started before go on and those not started stay as they are |
| Streamer.StartupIs | mcp331131_streaming/rpi_dma_utils.c:246-252 | The four writes: the bus address of the channel's own first control block, 2 to clear the end flag, 7 to clear the error bits, 1 to start |
| Streamer.Adc.AdcDmaInit | mcp331131_streaming/rpi_adc_stream.c:510-550 | From memory and channels at rest, everything fits together afterwards, although the first channels run while the others are still being started; transmit, receive and trigger are started in this order and keep running; the PWM word in memory is two below the range |
| Streamer.Adc.Interfere | mcp331131_streaming/rpi_adc_stream.c:501-550 | The steps of the schedule before one access are what happens to the shared memory; completions are landings, counted over these steps, plus flags newly set; once the receive channel is started, flags and completions are those of the schedule; under a steady one at most one block completes |
| Streamer.Adc.Sleep | mcp331131_streaming/rpi_adc_stream.c:801-802 | So are the steps during one sleep, and everything still fits together, however many blocks complete |
| Streamer.Adc.RunBoard | mcp331131_streaming/rpi_adc_stream.c:501-550 | Any feasible run keeps the link between memory, flags and history, and adds its landings to those before |
| Streamer.Adc.ReadWord | mcp331131_streaming/rpi_adc_stream.c:627-632 | A read returns the shared word as it is after the DMA steps before it |
| Streamer.Adc.CopyBuffer | mcp331131_streaming/rpi_adc_stream.c:630 | A word-by-word copy under interference holds what the schedule and the stream make of each word; it is one whole block if the other flag is still clear |
| Streamer.Adc.Examine | mcp331131_streaming/rpi_adc_stream.c:627-632 | No torn block: if the flags were readable when states[n] was seen set, and states[n^1] is then clear, the copied words and the time stamp are exactly the last completed block, of parity n; it is the one block still owed if all clearings were in time |
| Streamer.Adc.ClearState | mcp331131_streaming/rpi_adc_stream.c:634-638 | Clearing one flag, after the DMA steps before it, keeps the other as it was |
| Streamer.Adc.Accept | mcp331131_streaming/rpi_adc_stream.c:638-640 | Clearing states[n] takes the block next in order; flags and history fit again if the clearing was in time; usec_start is the first nonzero time stamp |
| Streamer.Adc.Reset | mcp331131_streaming/rpi_adc_stream.c:632-636 | An overrun gives up the blocks that waited, up to a block number fixed by what completed between the two clearings of flags; two or more if all clearings were in time |
| Streamer.Adc.TakeBlock | mcp331131_streaming/rpi_adc_stream.c:627-641 | One look at a buffer: nothing and the flag was clear before; or an overrun; or the words in rx_buff are taken. Which of the three, the words and the time stamp, the flags, the window and the accesses made are what the schedule and the streams make them, in time or not. samp_total grows by nsamp unless nothing was found, overrun_total by one for an overrun, in 32 bits, and usec_start is the first time stamp that is not zero |
| Streamer.Adc.WritePacket | mcp331131_streaming/rpi_adc_stream.c:754-790 | The bytes written are exactly the packet of the block in rx_buff; the buffer behind it is unchanged |
| Streamer.Adc.WriteHeader | mcp331131_streaming/rpi_adc_stream.c:754-764 | The eight header bytes are the four header words, and the sum starts as the sum of all four, sync words included |
| Streamer.Adc.WriteSamples | mcp331131_streaming/rpi_adc_stream.c:768-787 | Each sample is written byte-swapped, and the running sum is the sum of all words so far |
| Streamer.Adc.WriteRaw | mcp331131_streaming/rpi_adc_stream.c:692-704 | The raw bytes of the block in rx_buff, and nothing else changes |
| Streamer.Adc.PollBuffers | mcp331131_streaming/rpi_adc_stream.c:731-800 | One pass of adc_stream_packet or adc_stream_raw: no event and both flags were clear before, or one or two events of which only the last may be an overrun; the events and the end of the pass, windows included, are exactly those of the schedule and the streams; the buffer is the last block taken over the old contents; nrpackets counts the packets since the last overrun |
| Streamer.Adc.AdcStream | mcp331131_streaming/rpi_adc_stream.c:663-806 | The polling loop ends from every reachable state of a running stream if the receive channel gets on during each sleep, with the steps left until the next completion as measure, and always returns the full length; its events, its end and its windows are exactly those of the schedule and the streams |
| Streamer.Adc.DoStreamingUdp | mcp331131_streaming/rpi_adc_stream.c:583-599 | One call, one datagram: the buffer as the call left it, written or not, after exactly the call that the schedule and the streams make |
| Streamer.Adc.StreamUdp | mcp331131_streaming/rpi_adc_stream.c:310-316 | For any number of rounds, datagram c is the buffer after call c, and every call is the one that the schedule and the streams make. If all clearings were in time, every datagram is one whole block or nothing yet; a steady schedule, or at most one completion in each call, ensures that; ample time makes datagram c block c, with no overrun |
| Streamer.UdpProgram | mcp331131_streaming/rpi_adc_stream.c:303-317 | The same from the start, for every schedule: DMA set up, started, and any number of datagrams sent from the zeroed stream buffer, with the run and its windows pinned from the first access of the polling |
| Streamer.SingleProgram | mcp331131_streaming/rpi_adc_stream.c:319-327 | The single-shot branch prints the line of exactly the first nsamp stream words if and only if the channel had nsamp + 4 steps before the first look, and an empty line otherwise; no bound on the timing is needed |
| Streamer.OnlyBlock | mcp331131_streaming/rpi_adc_stream.c:540-541 | A single shot leaves nothing to take but block 0, which is the whole stream |
| Streamer.Adc.WriteLine | mcp331131_streaming/rpi_adc_stream.c:643-648 | The line never overruns the buffer; it stops at the first sample that starts with less than 21 bytes left; with room for 10 + 8*nsamp + 12 characters, which 10000 is for 1024 samples, it holds all nsamp fields |
| Streamer.Adc.AdcStreamCsv | mcp331131_streaming/rpi_adc_stream.c:621-660 | One call takes at most two blocks; its events and its end are exactly those of the schedule and the streams; the line is that of the last block taken, and is printed exactly if that was whole and, in lockstep, its own buffer's turn found the FIFO empty; so in lockstep without room nothing is printed, and blocks are taken, counted and dropped; with no event both flags were clear |
| Streamer.Adc.DoStreaming | mcp331131_streaming/rpi_adc_stream.c:553-579 | Without a reader nothing happens at all. With the FIFO open, or opened now, the round makes exactly the pass of the schedule, writes one line if that finds a block that may be printed and the reader takes it, sleeps exactly if it writes none, closes the FIFO exactly if the reader does not take a line, and accounts for every block complete before; the line is that of the last block taken, time since the first time stamp included |
| Streamer.Adc.StreamFifo | mcp331131_streaming/rpi_adc_stream.c:299-300 | For any number of rounds and any reader, calls and lines are exactly those of the schedule, the streams and the reader. If all clearings were in time, which a steady schedule ensures, the lines are those of whole blocks of the stream, in order and none twice, and all that was complete as the last round began is accounted for if the reader was always there; a reader that takes everything gets every block taken, in lockstep if it always emptied the FIFO, while one that never did gets nothing; with ample time line i is that of block i and nothing is lost |
| Streamer.FifoProgram | mcp331131_streaming/rpi_adc_stream.c:290-301 | The same from the start: DMA set up, started, the FIFO still closed |
| Lines.LineReads | mcp331131_streaming/rpi_adc_stream.c:643-648 | A reader of a line of the FIFO gets the microseconds since the first time stamp, from the timer stream, and the volts and millivolts of each word of one block of the SPI stream |
| History.CountEvent | mcp331131_streaming/rpi_adc_stream.c:629-640 | samp_total, overrun_total and usec_start after one more event, in wrapping 32-bit arithmetic |
| History.InOrder | mcp331131_streaming/rpi_adc_stream.c:625-638 | Later events are about later blocks: no block is taken twice or out of order |
| History.NoSilentLoss | mcp331131_streaming/rpi_adc_stream.c:625-638 | Between two blocks taken with overrun_total unchanged, every block was taken |
| History.ExactlyOnce | mcp331131_streaming/rpi_adc_stream.c:625-638 | Every block up to the first one still waiting is in exactly one event |
| History.Accounts | mcp331131_streaming/rpi_adc_stream.c:625-638 | Conservation: blocks taken and blocks discarded add up, and each overrun discards two or more |
| Datagrams.CallDelivers | mcp331131_streaming/rpi_adc_stream.c:723-805 | A call leaves either its newest block, complete and with its own number, or the buffer byte for byte as it was |
| Datagrams.LastFresh | mcp331131_streaming/rpi_adc_stream.c:312-316 | The largest call index that processed a block |
| Datagrams.SerialHistory | mcp331131_streaming/rpi_adc_stream.c:312-316 | Datagram k is well formed with serial j mod 65536, where j is the last call up to k that took a block, or the initial buffer if there is none |
| Datagrams.DatagramIsBlock | mcp331131_streaming/rpi_adc_stream.c:583-588 | The samples of every datagram after the first block are the byte-swapped words of exactly one whole block of the SPI stream |
| Datagrams.SkippedBlock | mcp331131_streaming/rpi_adc_stream.c:726-733 | Two calls without an overrun: their datagrams carry whole blocks under serial numbers c - 1 and c, and the blocks are as many apart as the second call took, so that a skipped block does not show in the serial numbers |
| Datagrams.SentInStep | mcp331131_streaming/rpi_adc_stream.c:312-316 | If call c took block c and nothing else, datagram c is block c under serial number c mod 65536 |
| Packet.SwapBytes | mcp331131_streaming/rpi_adc_stream.c:72-73 | The macro swaps the two bytes when truncated; untruncated it is too high by 65536 for each unit of the high byte |
| Packet.EncodeWordAt | mcp331131_streaming/rpi_adc_stream.c:776-781 | A little-endian reader gets back every word written |
| Packet.PacketRoundTrip | mcp331131_streaming/rpi_adc_stream.c:754-805 | A receiver reads 0x7FFF, 0x8000, a size equal to the length, num mod 65536, every byte-swapped sample, and a checksum equal to its own sum of everything before it |
| Packet.PacketBytesAre | mcp331131_streaming/rpi_adc_stream.c:754-790 | Byte by byte: ff 7f 00 80, the length, num mod 65536, and for each sample the high and then the low byte of the low half of its word |
| Packet.WordSumIsSum | mcp331131_streaming/rpi_adc_stream.c:764-790 | The receiver's sum over bytes is the sender's over words |
| Packet.HeaderSum | mcp331131_streaming/rpi_adc_stream.c:764 | -1 + size + serial is the sum mod 65536 of all four header words |
| Csv.FieldLength | mcp331131_streaming/rpi_adc_stream.c:71-73 | A field is five to seven characters, because the untruncated value stays below 2^24 |
| Csv.JoinLength | mcp331131_streaming/rpi_adc_stream.c:643-648 | The line stays within 10 + 8*i characters after i samples, for every contents |
| Csv.RoundEvenIs | mcp331131_streaming/rpi_adc_stream.c:71 | The rounding is the only one to the nearest with ties to even |
| Csv.UlpIs | mcp331131_streaming/rpi_adc_stream.c:71 | The unit in the last place is the power of two that leaves 53 bits |
| Csv.VoltsNear | mcp331131_streaming/rpi_adc_stream.c:71 | The binary64 product with 3.3, printed to three places, is within half a millivolt of the exact voltage, so only ties are left to rounding |
| Csv.VoltsNearest | mcp331131_streaming/rpi_adc_stream.c:71 | Away from the values 8192 mod 16384 the nearest millivolt is printed |
| Csv.TieDown | mcp331131_streaming/rpi_adc_stream.c:71 | The value 8192, received as the word 32, is 0.4125 V and prints as 0.412 |
| Csv.Ties | mcp331131_streaming/rpi_adc_stream.c:71 | At other ties the error of the product decides, or the even digit: 24576, 40960 and 122880 print as 1.237, 2.062 and 6.188 |
| Csv.DigitsValue | mcp331131_streaming/rpi_adc_stream.c:644 | A number printed reads back as that number |
| Csv.FieldValue | mcp331131_streaming/rpi_adc_stream.c:646-647 | A field has exactly one decimal point, three digits from its end; on its two sides a reader finds the volts and the millivolts that binary64 gives for its sample |
| Csv.SplitJoin | mcp331131_streaming/rpi_adc_stream.c:643-648 | Splitting at commas gives back exactly the fields |
| Csv.LineRoundTrip | mcp331131_streaming/rpi_adc_stream.c:643-648 | A reader of the line, which splits it at the commas and each field at its point, gets the time stamp, if asked for, and for each sample its volts and millivolts |
| Csv.ShortLine | mcp331131_streaming/rpi_adc_stream.c:643-648 | The line of the words 0, 32 and 256 with time stamp 70 is 70,0.000,0.412,3.300, character by character |
| Csv.VoltageOfSample | mcp331131_streaming/rpi_adc_stream.c:71-73 | The printed voltage is the sample's if and only if the byte received second is zero; otherwise it is 3.3 V too high for each unit of that byte, give or take the last digit at a tie |
| RawFormat.RawPairValue | mcp331131_streaming/rpi_adc_stream.c:702-703 | The two bytes from truncating % and / read back as v mod 65536 if and only if v is not negative or a multiple of 256, and as v + 256 otherwise |
| RawFormat.RawRoundTrip | mcp331131_streaming/rpi_adc_stream.c:692-704 | What a reader finds as sample x of the raw stream, for every sample |
| Gpio.Registers.GpioMode | mcp331131_streaming/rpi_dma_utils.c:100-104 | The named pin has the mode, every other pin its old mode, and the two bits above the fields of each register are as before |
| Gpio.Registers.InpGpio | batradio_module/batradio.h:19 | The named pin is an input, every other pin and bit is as before |
| Gpio.Registers.OutGpio | batradio_module/batradio.h:20 | The named pin's mode is odd: the output bit is added to what it was; every other pin and bit is as before |
| Gpio.Registers.SetGpioAlt | batradio_module/batradio.h:21 | The bits of the streamer's code for the alternate function, 4, 5, 6, 7, 3 or 2, are added to the named pin's mode; every other pin and bit is as before |
| Gpio.SetModeExact | mcp331131_streaming/rpi_dma_utils.c:100-104 | Bit surgery on one register is an update of one pin's mode |
| Gpio.ModeIsDigit | mcp331131_streaming/rpi_dma_utils.c:100-104 | The function of a pin is an octal digit of the number in its register: the digit that the pin's last decimal digit names |
| Gpio.AddExact | batradio_module/batradio.h:20-21 | Or-ing a code is the union with the old mode of one pin |
| Gpio.SetAllRefinesMap | mcp331131_streaming/rpi_dma_utils.c:100-104 | Any sequence of calls on the packed registers is the same sequence of updates of a map from pins to modes |
| Gpio.MacrosAreGpioMode | batradio_module/batradio.h:18-21 | INP_GPIO, alone or followed by OUT_GPIO or SET_GPIO_ALT, gives the same registers as gpio_mode, from any contents |
| Gpio.WithoutInp | batradio_module/batradio.h:18-21 | Without INP_GPIO first they agree with gpio_mode if and only if the old mode has no bit that the new one lacks |
| Setup.InitSpi | mcp331131_streaming/rpi_adc_stream.c:888-903 | The divider is the least even number that is at least 2, not below clock over hz, and gives 20 MHz or less; the result is the clock over it. It exceeds the frequency asked for by less than one part in clock/hz, and is not lower than the next divider gives unless the two limits demand it; 1 MHz from 400 MHz is divider 400 |
| Setup.SearchDiv | mcp331131_streaming/rpi_adc_stream.c:897-898 | The search ends, with the least usable divider |
| Setup.RoundupIsLeast | mcp331131_streaming/rpi_dma_utils.h:62 | PAGE_ROUNDUP gives the least multiple of 4096 that is not smaller |
| Setup.RoundupWhole | mcp331131_streaming/rpi_dma_utils.h:62 | That multiple is the only number of whole pages that just holds the size, and rounding it again changes nothing |
| Setup.MemMap.MapUncachedMem | mcp331131_streaming/rpi_dma_utils.c:48-59 | The size kept, the size asked of the mailbox and the size mapped are the same whole pages, although each call rounds again |
| Setup.MemMap.MapPeriph | mcp331131_streaming/rpi_dma_utils.c:38-45 | The size kept and the size mapped are the same whole pages |
| Setup.MemMap.UnmapSegment | mcp331131_streaming/rpi_dma_utils.c:230-234 | What is unmapped is what was mapped |

## Left out

Assumptions about the hardware, each visible as a definition:

- Memory is sequentially consistent and uncached, and word accesses are atomic: the program and the DMA share one state.
- The SPI status copied into states[] is not zero (`DmaEngine.Possible`): its transfer-active and DMA-enable bits are set.
- Bus memory from the mailbox is page-aligned, not zero, and away from the peripherals (`Layout.ValidConfig`). The values
  delivered by peripherals are arbitrary.
- Polling ends only if the receive channel takes at least one step during each sleep (`Schedules.Lively`).
- The request signals, waits and priorities of the DMA controller (section 4 of the BCM2835 ARM Peripherals datasheet)
  only decide when a channel steps, and every timing is allowed.

What the contracts do not say:

- Streamer.Adc.Sleep: says nothing about how long a sleep is; that is part of the schedule.
- Streamer.Adc.StreamUdp: num is unbounded, because overflow of the int in main is undefined; the serial number in the
  packet is num mod 65536 all the same. The same holds for nrpackets, which is only printed.
- Streamer.Adc.AdcStreamCsv: whether the FIFO has room is a parameter, one answer for each buffer; so is, in
  Streamer.Adc.DoStreaming, whether a reader opens the FIFO and takes a line. A line is taken whole or not at all;
  write() on a non-blocking FIFO could also take part of it.
- Streamer.SingleProgram: dma_wait reads a register that is also zero between two control blocks and has a timeout, so
  the wait is one sleep of any length here.
- Gpio.Registers.GpioMode: takes the mode codes of the header, 0 to 7; a larger mode would spill into the next field.

What the repository does besides:

- PWM and clock set-up, SPI register writes outside the DMA, dma_wait's register polling, frequency tests: hardware timing.
- Sockets, named pipes, option parsing, signals, verbose output: main hands nsamp in 1..1024 to the code modelled.
- mmap, /dev/mem, mailbox messages and gpio_pull: foreign calls and fixed sequences; only the sizes are modelled.
- The kernel modules of batradio_module beyond the GPIO macros, the test programs and the board data.
