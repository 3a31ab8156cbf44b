# Verified model of the logic stream and bus library

A Dafny model of the clocked building blocks of the library (dual-clock FIFO, single-clock queue,
AXI4-Lite one-to-many bus, stream stages, write aligner, PLL lock service) and of the C++ test
library beside them (JSON printer, AXI4-Stream driver and monitor, bit streams), with proofs of
what they guarantee over whole runs.

Every clocked component appears twice. A value-level state with a step function says what one edge
does to all registers; the invariants, conservation laws and run theorems are lemmas about it. A
class with the source's registers, arrays and services updates them in place and is proved to make
exactly that step. The C++ loops are methods proved against recursive definitions in the same way.

How the parts are modelled:

- **Dual-clock FIFO** (`ClockCrossing`, `ClockCrossingProof`, `ClockCrossingDrain`,
  `ClockCrossingUnits`, `PointerCrossing`, `GrayCode`). An edge is a write clock, a read clock, both
  at once, or the assertion of the common reset. At a coincident edge every bit of a gray sample is
  independently the old or the new one. Each domain leaves reset by its own two-stage synchronizer.
  Memory and data registers are not reset. A read of the slot being written at the same instant
  would return an arbitrary word; that this never happens is part of the proof.
- **Queue** (`Queues`, `Ring`). Circular memory, wrapping occupancy counter, registered flags.
  Depth is any number from 2, which includes every power of two the source uses.
- **Stages** (`Stages`, `StageDrain`). Skid buffer, delay line with any number of stages (zero
  included) and queue, and chains of them in any order.
- **Bus** (`BusParts`, `BusRead`, `BusWrite`, `BusUnits`, `BusPorts`, `BusReadPort`, `BusWritePort`,
  `BusWaits`, `BusReadProgress`, `BusWriteChoke`, `BusWriteProgress`, `BusWriteHang`,
  `BusWriteLead`). Any number of slaves, any address map, opaque payloads. A lane is an output
  register of the decoder with the queue behind it. `BusRead` and `BusWrite` take that queue as an
  abstract FIFO that may stall at its input and hide its head as it likes. The port modules put the
  real queues, each leaving reset two clocks late, the upstream skid buffers and the slaves'
  response buffers around it; their results speak of the ports of the bus. The progress modules
  bound how soon what the ports have accepted is answered. The response for an unmapped address
  (DECERR, zero data) is the parameter `unmapped`.
- **Write aligner and PLL lock service** (`WriteAligned`, `PllLock`). The timer of the lock service
  is an arbitrary input.
- **Test library** (`JsonEmitter`, `StreamAgent`, `Bitstreams`). JSON output is a list of tokens.
  Driver and monitor share a bus whose ready signal, idle draws and reset are arbitrary inputs.
  Bytes are vectors of eight bits.

Three properties one might expect do not hold of the code; each comes with a failing input and the
condition under which it holds:

- The write half of the bus can hang. The decoder lets a data word pass only while the queues of the
  decoded ids are open, and one of them is emptied by data only: an upstream port that sends more
  addresses than a queue holds before their data closes it for good (`BusWriteHang.PowerUpHangs`,
  `BusWriteChoke.ChokedForEver`). In time every run is served or choked, whatever is sent
  (`BusWriteProgress.ServedOrChoked`): the complete writes are all answered in time exactly if the last
  of them is not stuck behind a choked decoder (`BusWriteProgress.ServedIffNotStuck`), and a stuck write
  is never answered (`BusWriteProgress.StuckForEver`). No schedule that keeps addresses at most L ahead of
  data gets a write stuck exactly if L is at most the capacity of a queue (`BusWriteLead.LeadIff`).
- The driver keeps an offered transfer until it is taken, as the handshake rule of AMBA 4
  AXI4-Stream, section 2.2.1, wants it, only while ready is down for at most timeout + 1 clocks
  (`StreamAgent.HeldWhilePatient`, `StreamAgent.HandshakeKept`); after that it withdraws it
  (`StreamAgent.WithdrawnTransfer`). Without a timeout it always keeps it.
- The JSON printer always prints well-formed output, but the nesting is that of the levels exactly if no
  row comes back to a level strictly between a parent and its first child
  (`JsonEmitter.IndentedGrouping`; `JsonEmitter.MisplacedRow` loses it), and all rows are printed
  exactly if none lies above the first one (`JsonEmitter.AllRowsPrinted`; `JsonEmitter.LostRow` loses one).

`Wrapping` and `Streams` hold the arithmetic of wrapping counters and the vocabulary of streams.

## Model

| member | source | states |
|---|---|---|
| `ClockCrossingProof.CrossingIsFifo` | rtl/logic/clock/domain_crossing/logic_clock_domain_crossing_generic.sv:36-130 | Main result of the dual-clock FIFO, over every run from power up: any interleaving of write and read edges, coincident edges with torn samples, any order of leaving a common reset, later resets. Accepted since the last reset = delivered, then output register, memory read register and memory; the four pointer counts stay ordered and within one turn |
| `ClockCrossingDrain.CrossingDrains` | rtl/logic/clock/domain_crossing/logic_clock_domain_crossing_generic.sv:91-129 | Main result on progress, from any reachable state holding n words: one write clock, then 3n+7 read clocks with downstream ready, deliver every word accepted before, whatever the interleaving, the samples and the writer |
| `ClockCrossingDrain.DrainStep` | rtl/logic/clock/domain_crossing/logic_clock_domain_crossing_generic_read.sv:64-144 | The measure over reset release, synchronizer, flags, words in memory and the two registers falls at every ready read clock |
| `ClockCrossingDrain.DrainRun` | rtl/logic/clock/domain_crossing/logic_clock_domain_crossing_generic_read.sv:64-144 | Over any run it falls by the number of read clocks, whatever the write clock does |
| `ClockCrossingDrain.ReadStep` | rtl/logic/clock/domain_crossing/logic_clock_domain_crossing_generic_read.sv:64-129 | A word known to be there is read within three read clocks, through stale flags and a moving synced pointer |
| `ClockCrossingDrain.LoadRun` | rtl/logic/clock/domain_crossing/logic_clock_domain_crossing_generic_read_sync.sv:42-49 | One write clock puts every write so far into the gray register, and it never falls back |
| `ClockCrossingDrain.DeliveredIsCounted` | rtl/logic/clock/domain_crossing/logic_clock_domain_crossing_generic_read.sv:122-144 | The number of words delivered since reset is the read count less the two registers |
| `ClockCrossingDrain.WriterIsReadmitted` | rtl/logic/clock/domain_crossing/logic_clock_domain_crossing_generic_write.sv:53-87 | The way back, after any run: once one read clock has passed and at most 2^A-4 words are written beyond those read before it, the writer is ready within seven write clocks, however the read clock runs meanwhile |
| `ClockCrossingDrain.ReopenStep` | rtl/logic/clock/domain_crossing/logic_clock_domain_crossing_generic_write.sv:53-87 | A refused writer that should not be comes closer to ready at every write clock, through reset release, synchronizer and stale difference, and nothing is written meanwhile |
| `ClockCrossingDrain.ReopenRun` | rtl/logic/clock/domain_crossing/logic_clock_domain_crossing_generic_write.sv:53-87 | Over any run it has been ready, or the measure has fallen by the number of write clocks |
| `ClockCrossingDrain.LoadReads` | rtl/logic/clock/domain_crossing/logic_clock_domain_crossing_generic_write_sync.sv:29-40 | One read clock puts every read so far into the gray register on its way to the write domain |
| `ClockCrossingProof.Conservation` | rtl/logic/clock/domain_crossing/logic_clock_domain_crossing_generic_read.sv:64-144 | One edge: what leaves followed by what is held after equals what was held before followed by what enters |
| `ClockCrossingProof.EdgeKeeps` | rtl/logic/clock/domain_crossing/logic_clock_domain_crossing_generic.sv:91-129 | One edge for an observer of both ports: invariant, conservation of accepted and delivered words, and the order of the four counts |
| `ClockCrossingProof.RunConserves` | rtl/logic/clock/domain_crossing/logic_clock_domain_crossing_generic.sv:95-129 | The same over a whole run, by induction, from any state of the invariant that holds no word |
| `ClockCrossingProof.OccupancyBound` | rtl/logic/clock/domain_crossing/logic_clock_domain_crossing_generic_write.sv:53-87 | Although ready is decided on pointers two write clocks old, 0 <= W-R <= W-Rsynced <= 2^A-1; before a write at most 2^A-2 words are stored; a write and a read at one instant never address the same slot |
| `ClockCrossingProof.OccupancyIsExact` | rtl/logic/clock/domain_crossing/logic_clock_domain_crossing_generic_write.sv:58-65 | The wrapped difference of the two pointers is the true number of stored words |
| `ClockCrossingProof.Order` | rtl/logic/clock/domain_crossing/logic_clock_domain_crossing_generic_read_sync.sv:42-78 | Along both crossings the counts only lag: Rsynced <= R <= Wsynced <= W < Rsynced + 2^A |
| `ClockCrossingProof.StepInv` | rtl/logic/clock/domain_crossing/logic_clock_domain_crossing_generic.sv:91-129 | Every legal edge, reset included, keeps the invariant of both domains and both pointer crossings |
| `ClockCrossingProof.StartInv` | rtl/logic/clock/domain_crossing/logic_clock_domain_crossing_generic.sv:77-89 | Power up and common reset establish that invariant whatever the memory holds |
| `ClockCrossingProof.RunInv` | rtl/logic/clock/domain_crossing/logic_clock_domain_crossing_generic.sv:77-129 | The invariant holds in every reachable state |
| `ClockCrossingProof.WriteDomainStep` | rtl/logic/clock/domain_crossing/logic_clock_domain_crossing_generic_write.sv:53-87 | Threshold 2^A-3 on the stale difference is enough: one write edge keeps written - readSynced below the depth even if the synced count moves at that edge |
| `ClockCrossingProof.ReadDomainStep` | rtl/logic/clock/domain_crossing/logic_clock_domain_crossing_generic_read.sv:64-129 | One read edge keeps the stale comparison sound: almost_empty down implies a word known to be there |
| `ClockCrossingProof.ReadyIsTwoClocksOld` | rtl/logic/clock/domain_crossing/logic_clock_domain_crossing_generic_write.sv:53-78 | Exactly when the writer is refused: ready after two write clocks iff fewer than 2^A-3 words were not known to be read at the first of them, however the read clock runs |
| `ClockCrossingProof.ReadNeverUnderflows` | rtl/logic/clock/domain_crossing/logic_clock_domain_crossing_generic_read.sv:82-120 | A read is never enabled when the synced write count equals the read count |
| `ClockCrossingProof.ReadsOutOfReset` | rtl/logic/clock/domain_crossing/logic_clock_domain_crossing_generic_read.sv:64-129 | No read is enabled while the read domain is still held in reset |
| `ClockCrossingProof.ToReadStep` | rtl/logic/clock/domain_crossing/logic_clock_domain_crossing_generic_read_sync.sv:34-78 | The write pointer crossing stays aligned over every edge and its synced count never falls |
| `ClockCrossingProof.ToWriteStep` | rtl/logic/clock/domain_crossing/logic_clock_domain_crossing_generic_write_sync.sv:29-40 | The same for the read pointer on its way to the write domain |
| `ClockCrossingProof.MemoryStep` | rtl/logic/clock/domain_crossing/logic_clock_domain_crossing_generic_memory.sv:33-45 | Memory as a circular list: a read takes exactly its first word, a write appends exactly the accepted word |
| `ClockCrossingProof.OutputStep` | rtl/logic/clock/domain_crossing/logic_clock_domain_crossing_generic_read.sv:85-144 | Prefetch state machine, memory read register and output register pass words on in order, in every reset phase |
| `ClockCrossingProof.EightBehind` | rtl/logic/clock/domain_crossing/logic_clock_domain_crossing_generic_read.sv:82-83 | If the flag says empty although words are known to be there, at least eight of them wait |
| `ClockCrossingProof.FlagCatchesUp` | rtl/logic/clock/domain_crossing/logic_clock_domain_crossing_generic_read.sv:64-83 | With eight or more words known, two read clocks later almost_empty is down, however many write clocks come between |
| `ClockCrossingProof.EmptyIsShortLived` | rtl/logic/clock/domain_crossing/logic_clock_domain_crossing_generic_read.sv:53-83 | Bounded pessimism: equal counts always read as empty; unequal counts read as not empty now or two read clocks later, however far the synced pointer jumps |
| `ClockCrossingProof.ReadsWhenKnown` | rtl/logic/clock/domain_crossing/logic_clock_domain_crossing_generic_read.sv:82-120 | A read clock out of reset reads a word iff the prefetch register is free or its word moves on, whenever the number of words known to be there is no multiple of eight; none is read when none is known |
| `ClockCrossingProof.KnownWords` | rtl/logic/clock/domain_crossing/logic_clock_domain_crossing_generic_read.sv:82-83 | The cheap empty flag in terms of that number: down unless it is a multiple of eight, up when it is zero |
| `ClockCrossingProof.StalledRun` | rtl/logic/clock/domain_crossing/logic_clock_domain_crossing_generic_read.sv:131-144 | Handshake rule at the output: over any run without reset and without a ready read clock a valid word stays there unchanged |
| `ClockCrossingProof.StalledWordStays` | rtl/logic/clock/domain_crossing/logic_clock_domain_crossing_generic_read.sv:131-144 | The same for one edge of either clock or both |
| `ClockCrossingUnits.WriteService.constructor` | rtl/logic/clock/domain_crossing/logic_clock_domain_crossing_generic_write.sv:58-87 | The write service starts in its reset state |
| `ClockCrossingUnits.WriteService.Reset` | rtl/logic/clock/domain_crossing/logic_clock_domain_crossing_generic_write.sv:58-87 | Reset values of every write-side register |
| `ClockCrossingUnits.WriteService.Clock` | rtl/logic/clock/domain_crossing/logic_clock_domain_crossing_generic_write.sv:58-87 | In-place register transfers of a write clock are the specified step, held back while in reset |
| `ClockCrossingUnits.ReadService.constructor` | rtl/logic/clock/domain_crossing/logic_clock_domain_crossing_generic_read.sv:64-144 | The read service starts in its reset state |
| `ClockCrossingUnits.ReadService.Reset` | rtl/logic/clock/domain_crossing/logic_clock_domain_crossing_generic_read.sv:64-144 | Reset values; the data registers keep their words |
| `ClockCrossingUnits.ReadService.Clock` | rtl/logic/clock/domain_crossing/logic_clock_domain_crossing_generic_read.sv:64-144 | In-place register transfers of a read clock are the specified step; data registers move even in reset |
| `ClockCrossingUnits.DualClockFifo.constructor` | rtl/logic/clock/domain_crossing/logic_clock_domain_crossing_generic.sv:77-129 | The composition starts as the reset state with the invariant, for every address width from 3 |
| `ClockCrossingUnits.DualClockFifo.Reset` | rtl/logic/clock/domain_crossing/logic_clock_domain_crossing_generic.sv:77-89 | The common reset reaches all units, leaves the memory alone and starts the histories over |
| `ClockCrossingUnits.DualClockFifo.Clock` | rtl/logic/clock/domain_crossing/logic_clock_domain_crossing_generic.sv:91-129 | One edge of either clock or both, in place: the object keeps the invariant of all reachable states, accepted words stay delivered words followed by held ones, the counts stay ordered within one turn, and a valid word that is not taken stays at the output |
| `ClockCrossingUnits.DualClockFifo.ClockServices` | rtl/logic/clock/domain_crossing/logic_clock_domain_crossing_generic.sv:95-129 | Services and memory see the pointers before the edge |
| `ClockCrossingUnits.DualClockFifo.ClockSyncs` | rtl/logic/clock/domain_crossing/logic_clock_domain_crossing_generic.sv:107-121 | Both synchronizers move by one step and touch nothing else |
| `GrayCode.BinaryToGray` | rtl/logic/basic/binary2gray/logic_basic_binary2gray.sv:35-41 | The ascending loop computes the recursive gray code, any width |
| `GrayCode.GrayToBinary` | rtl/logic/basic/gray2binary/logic_basic_gray2binary.sv:35-41 | The descending loop, reading bits already written, computes the recursive inverse, any width |
| `GrayCode.GrayRoundTrip` | rtl/logic/basic/gray2binary/logic_basic_gray2binary.sv:35-41 | Each conversion undoes the other |
| `GrayCode.NumberOfBits` | rtl/logic/clock/domain_crossing/logic_clock_domain_crossing_generic_read_sync.sv:29-32 | The low w bits of a count denote the count modulo 2^w |
| `GrayCode.DecodeCode` | rtl/logic/clock/domain_crossing/logic_clock_domain_crossing_generic_read_sync.sv:63-69 | A count sent as gray code is read back modulo 2^w |
| `GrayCode.CodeStep` | rtl/logic/basic/binary2gray/logic_basic_binary2gray.sv:35-41 | Codes of n and n+1, the wrap at 2^w included, differ in exactly one bit |
| `GrayCode.TornStep` | rtl/logic/clock/domain_crossing/logic_clock_domain_crossing_generic_read_sync.sv:51-61 | Any bit-by-bit mixture of the codes of n and n+1 is one of the two |
| `PointerCrossing.CrossingStep` | rtl/logic/clock/domain_crossing/logic_clock_domain_crossing_generic_read_sync.sv:34-78 | Main result of the pointer crossing: gray register, torn sample, synchronizer, decoder and register stay codes of counts that only lag; the synced count is monotone and never ahead |
| `PointerCrossing.ResetAligned` | rtl/logic/clock/domain_crossing/logic_clock_domain_crossing_generic_read_sync.sv:42-78 | The all-zero registers of reset are the codes of count zero, any width |
| `PointerCrossing.SampleIsCode` | rtl/logic/clock/domain_crossing/logic_clock_domain_crossing_generic_read_sync.sv:42-61 | A sample across the edge decodes to the pointer before or after it |
| `PointerCrossing.Synchronizer.constructor` | rtl/logic/basic/synchronizer/logic_basic_synchronizer_generic.sv:37-46 | A chain of any number of stages, all zero |
| `PointerCrossing.Synchronizer.Reset` | rtl/logic/basic/synchronizer/logic_basic_synchronizer_generic.sv:39-59 | Reset clears every stage |
| `PointerCrossing.Synchronizer.Clock` | rtl/logic/basic/synchronizer/logic_basic_synchronizer_generic.sv:39-61 | One clock shifts the chain in place by one |
| `PointerCrossing.PointerSync.constructor` | rtl/logic/clock/domain_crossing/logic_clock_domain_crossing_generic_read_sync.sv:29-78 | The path starts in its reset state |
| `PointerCrossing.PointerSync.Reset` | rtl/logic/clock/domain_crossing/logic_clock_domain_crossing_generic_read_sync.sv:42-78 | Reset values of the whole path |
| `PointerCrossing.PointerSync.Clock` | rtl/logic/clock/domain_crossing/logic_clock_domain_crossing_generic_read_sync.sv:34-78 | One edge of either clock is the specified step of the path |
| `Ring.SlicePop` | rtl/logic/basic/queue/logic_basic_queue_generic_memory.sv:40-44 | Advancing the read pointer drops the first word of the circular memory |
| `Ring.SlicePush` | rtl/logic/basic/queue/logic_basic_queue_generic_memory.sv:34-38 | Writing behind the last word appends it and disturbs no stored word |
| `Ring.RingStep` | rtl/logic/basic/queue/logic_basic_queue_generic_memory.sv:32-44 | Both at once, in a memory of any depth; written and read slots differ |
| `Streams.ShiftIn` | rtl/logic/basic/synchronizer/logic_basic_synchronizer_generic.sv:48-61 | The loop that moves every stage from its predecessor equals one shift of the whole array |
| `Queues.QueueIsFifo` | rtl/logic/basic/queue/logic_basic_queue_generic.sv:46-75 | Main result of the single-clock queue, from any state of the invariant over any run: delivered followed by held words = held words followed by accepted ones |
| `Queues.Conservation` | rtl/logic/basic/queue/logic_basic_queue_generic_read.sv:53-112 | The same for one clock: output register, prefetch register, circular memory |
| `Queues.StepInv` | rtl/logic/basic/queue/logic_basic_queue_generic.sv:46-75 | Occupancy within 0..depth, flags and pointers stay consistent |
| `Queues.ResetInv` | rtl/logic/basic/queue/logic_basic_queue_generic_capacity.sv:27-30 | Reset establishes the invariant whatever the memory holds |
| `Queues.FlagsAreExact` | rtl/logic/basic/queue/logic_basic_queue_generic_read.sv:42-51 | The flag made of a registered comparison and two low bits holds iff the queue memory is empty; no write is enabled when it is full |
| `Queues.RefusedOnlyNearFull` | rtl/logic/basic/queue/logic_basic_queue_generic_write.sv:32-47 | After any clock ready is down only if at most two places are left, and it is down if none is |
| `Queues.CapacityStep` | rtl/logic/basic/queue/logic_basic_queue_generic_capacity.sv:27-37 | The wrapping counter counts exactly: writes minus reads, never wrapping |
| `Queues.PointersStep` | rtl/logic/basic/queue/logic_basic_queue_generic_write.sv:49-56 | The write pointer stays capacity slots ahead of the read pointer |
| `Queues.MemoryStep` | rtl/logic/basic/queue/logic_basic_queue_generic_memory.sv:32-44 | Memory and occupancy move as a list: one word off the front, one word to the back |
| `Queues.FrontStep` | rtl/logic/basic/queue/logic_basic_queue_generic_read.sv:62-112 | Prefetch and output register pass words on in order |
| `Queues.DeadlineStep` | rtl/logic/basic/queue/logic_basic_queue_generic_read.sv:62-112 | With ready held, each clock brings the delivery of the first n words closer |
| `Queues.DeadlineMet` | rtl/logic/basic/queue/logic_basic_queue_generic_read.sv:62-112 | Hence n words are out after the deadline of n |
| `Queues.QueueDrains` | rtl/logic/basic/queue/logic_basic_queue_generic_read.sv:62-112 | From any state of the invariant holding n words, n+2 clocks of ready deliver them all first, whatever the writer does |
| `Queues.BasicQueue.constructor` | rtl/logic/basic/queue/logic_basic_queue_generic.sv:18-44 | The queue starts in its reset state |
| `Queues.BasicQueue.Clock` | rtl/logic/basic/queue/logic_basic_queue_generic.sv:46-75 | One clock in place keeps the invariant, is the specified step, and conserves words |
| `Queues.BasicQueue.Update` | rtl/logic/basic/queue/logic_basic_queue_generic.sv:46-75 | Service by service the new state is the specified step |
| `Stages.ChainIsFifo` | rtl/logic/basic/delay/logic_basic_delay.sv:49-98 | Any chain of skid buffers, delay lines and queues, over any run, is an order-preserving FIFO |
| `Stages.ChainConserves` | rtl/logic/basic/buffer/logic_basic_buffer.sv:64-128 | One clock of a whole chain, ready travelling backwards and data forwards through it |
| `Stages.ChainStable` | rtl/logic/basic/buffer/logic_basic_buffer.sv:102-128 | If the source keeps a stalled word, so does the far end of any chain |
| `Stages.ChainBecomesReady` | rtl/logic/basic/buffer/logic_basic_buffer.sv:87-94 | After as many clocks of ready downstream as there are stages, a chain of buffers and delay lines is ready upstream |
| `Stages.ReadySpreads` | rtl/logic/basic/buffer/logic_basic_buffer.sv:87-94 | Each such clock makes one more stage ready |
| `Stages.StageConserves` | rtl/logic/basic/buffer/logic_basic_buffer.sv:64-128 | Each stage keeps its invariant (buffered implies not ready) and conserves words |
| `Stages.StageStable` | rtl/logic/basic/buffer/logic_basic_buffer.sv:64-128 | A stalled valid word stays unchanged at the output of each stage |
| `Stages.DelayConserves` | rtl/logic/basic/delay/logic_basic_delay.sv:49-98 | The stalled pipeline of any number of stages, none included, conserves words |
| `Stages.SkidBuffer.constructor` | rtl/logic/basic/buffer/logic_basic_buffer.sv:64-94 | Reset values |
| `Stages.SkidBuffer.Clock` | rtl/logic/basic/buffer/logic_basic_buffer.sv:64-128 | Outputs before the clock and registers after it; buffered implies not ready is kept |
| `Stages.DelayLine.constructor` | rtl/logic/basic/delay/logic_basic_delay.sv:51-60 | A pipeline of any depth without valid words |
| `Stages.DelayLine.Clock` | rtl/logic/basic/delay/logic_basic_delay.sv:49-98 | Outputs before the clock and stage registers after it |
| `StageDrain.ChainDrains` | rtl/logic/basic/buffer/logic_basic_buffer.sv:64-128 | Main result on progress of chains of any buffers, delay lines and queues: with the sink ready for n clocks and a constant for every stage (2 for a buffer, its stages for a delay line, 7 for a queue), the n words inside have been delivered first, whatever the source does |
| `StageDrain.ChainFlows` | rtl/logic/basic/delay/logic_basic_delay.sv:49-98 | In a chain that is open, every clock and every register: the words up to the register are no more than those that were before it and those that entered, or one has left |
| `StageDrain.OpeningStep` | rtl/logic/basic/buffer/logic_basic_buffer.sv:87-94 | Every clock with a ready sink brings a chain closer to being open from end to end, refilling queues included, and an open one stays open |
| `StageDrain.OnTimeStep` | rtl/logic/basic/buffer/logic_basic_buffer.sv:102-128 | The words beyond every register stay in time: one a clock, delayed by the registers before it |
| `StageDrain.CostCovers` | rtl/logic/basic/queue/logic_basic_queue_generic_write.sv:32-47 | Opening and latency of a chain are covered by the constants of its stages |
| `BusParts.Decode` | rtl/logic/axi4/lite/bus/logic_axi4_lite_bus_multi_slave_decoder.sv:136-167 | The map: low <= address < high for the chosen region and for no later one, and none is chosen iff that holds of none |
| `BusParts.DecodeFindsOwner` | rtl/logic/axi4/lite/bus/logic_axi4_lite_bus_multi_slave_decoder.sv:136-167 | Every address has exactly one owner or none, by the two bounds of the regions alone, and decoding finds it |
| `BusParts.Lookup` | rtl/logic/axi4/lite/bus/logic_axi4_lite_bus_multi_slave_decoder.sv:136-157 | The overwriting loop finds the owner of the address, the last region with low <= address < high, or none |
| `BusParts.QueueServesLane` | rtl/logic/axi4/lite/bus/logic_axi4_lite_bus_multi_slave.sv:143-172 | The single-clock queue is a lane of the bus: it shows its oldest word only, and a clock pops and appends as a lane does |
| `BusParts.LaneConserves` | rtl/logic/axi4/lite/bus/logic_axi4_lite_bus_multi_slave_decoder.sv:87-102 | A decoder register and the queue behind it keep words in order |
| `BusParts.LockStep` | rtl/logic/axi4/lite/bus/logic_axi4_lite_bus_multi_slave_decoder.sv:175-282 | Registers that each load when they and all the others are ready take the same sequence |
| `BusParts.RouterConserves` | rtl/logic/axi4/lite/bus/logic_axi4_lite_bus_multi_slave_mux.sv:179-234 | A slave register gives up its word when taken and gains the routed word iff the id selects it |
| `BusParts.RouterTracks` | rtl/logic/axi4/lite/bus/logic_axi4_lite_bus_multi_slave_mux.sv:179-234 | Sent words and the register of every slave stay its share of the routed history |
| `BusParts.CollectorTracks` | rtl/logic/axi4/lite/bus/logic_axi4_lite_bus_multi_slave_mux.sv:97-177 | Collected responses follow the order of ids |
| `BusParts.CollectorLaneTracks` | rtl/logic/axi4/lite/bus/logic_axi4_lite_bus_multi_slave_mux.sv:106-146 | The same including the response register and its queue |
| `BusParts.ReceivedFromOrigin` | rtl/logic/axi4/lite/bus/logic_axi4_lite_bus_multi_slave_mux.sv:179-234 | The j-th word a slave received is the j-th upstream word decoded to it |
| `BusParts.ReceivedAtPlace` | rtl/logic/axi4/lite/bus/logic_axi4_lite_bus_multi_slave_mux.sv:179-234 | Conversely, upstream word i is received at its place among the words of its slave |
| `BusParts.ShareAtPlace` | rtl/logic/axi4/lite/bus/logic_axi4_lite_bus_multi_slave_mux.sv:217-234 | In the share of its slave, word i stands at its place |
| `BusParts.GoodAnswer` | rtl/logic/axi4/lite/bus/logic_axi4_lite_bus_multi_slave_mux.sv:123-146 | If slaves answer in order, the collected response i is the answer to request i |
| `BusRead.ReadsAreAnswered` | rtl/logic/axi4/lite/bus/logic_axi4_lite_bus_multi_slave.sv:127-187 | Decoder, queues and mux, any number of slaves, any stalls, any notion of a good answer: if every slave answers its own requests in order, response i is a good answer of the decoded slave to request i, or the error word when nothing is mapped |
| `BusRead.ReadOrdering` | rtl/logic/axi4/lite/bus/logic_axi4_lite_bus_multi_slave_mux.sv:123-177 | Response i is the error word iff its address is unmapped, otherwise what the decoded slave gave to its own request of that number |
| `BusRead.ReturnedInOrder` | rtl/logic/axi4/lite/bus/logic_axi4_lite_bus_multi_slave_mux.sv:123-177 | The same as a property of every state of the invariant |
| `BusRead.ReadRouting` | rtl/logic/axi4/lite/bus/logic_axi4_lite_bus_multi_slave_mux.sv:78-104 | Each slave receives in order exactly the requests decoded to it, at most one waiting in its register |
| `BusRead.StepInv` | rtl/logic/axi4/lite/bus/logic_axi4_lite_bus_multi_slave_decoder.sv:104-122 | Every clock keeps lanes, router and collector in step |
| `BusRead.LanesStep` | rtl/logic/axi4/lite/bus/logic_axi4_lite_bus_multi_slave_decoder.sv:244-282 | Address lane and both id lanes take a request at the same clock or not at all |
| `BusRead.RequestStep` | rtl/logic/axi4/lite/bus/logic_axi4_lite_bus_multi_slave_mux.sv:217-234 | Requests and ids are consumed together and reach the selected slave |
| `BusRead.ResponseStep` | rtl/logic/axi4/lite/bus/logic_axi4_lite_bus_multi_slave_mux.sv:123-146 | Responses are collected in the order of the ids |
| `BusRead.RunInv` | rtl/logic/axi4/lite/bus/logic_axi4_lite_bus_multi_slave.sv:127-187 | The invariant of the read half holds after every run |
| `BusWrite.WritesAreAnswered` | rtl/logic/axi4/lite/bus/logic_axi4_lite_bus_multi_slave.sv:127-187 | Decoder, queues and mux: if every slave answers its own writes in order after taking address and data, response i is a good answer to address i with data word i, or the error word when nothing is mapped |
| `BusWrite.WriteRouting` | rtl/logic/axi4/lite/bus/logic_axi4_lite_bus_multi_slave_decoder.sv:62-102 | The j-th address and the j-th data word of a slave belong to the same upstream write, the j-th decoded to it, even if data came first |
| `BusWrite.InvOrders` | rtl/logic/axi4/lite/bus/logic_axi4_lite_bus_multi_slave_mux.sv:106-121 | In every state of the invariant responses keep the order of requests and the words of each slave belong to the same writes |
| `BusWrite.NothingMisrouted` | rtl/logic/axi4/lite/bus/logic_axi4_lite_bus_multi_slave_mux.sv:72-95 | Every routed address and data word is in exactly its slave, or dropped when unmapped |
| `BusWrite.StepInv` | rtl/logic/axi4/lite/bus/logic_axi4_lite_bus_multi_slave_decoder.sv:62-102 | Every clock keeps the five lanes, both routers and the collector in step |
| `BusWrite.LanesStep` | rtl/logic/axi4/lite/bus/logic_axi4_lite_bus_multi_slave_decoder.sv:175-236 | Address lane and three id lanes advance in lock step; data may run ahead or behind |
| `BusWrite.AddressStep` | rtl/logic/axi4/lite/bus/logic_axi4_lite_bus_multi_slave_mux.sv:198-215 | Addresses reach the slave of their own id |
| `BusWrite.DataStep` | rtl/logic/axi4/lite/bus/logic_axi4_lite_bus_multi_slave_mux.sv:179-196 | Data words are routed by the copy of the id made for their address |
| `BusWrite.ResponseStep` | rtl/logic/axi4/lite/bus/logic_axi4_lite_bus_multi_slave_mux.sv:106-121 | Responses are collected in the order of the ids |
| `BusWrite.RunInv` | rtl/logic/axi4/lite/bus/logic_axi4_lite_bus_multi_slave.sv:127-187 | The invariant of the write half holds after every run |
| `BusReadPort.PortReadsAreAnswered` | rtl/logic/axi4/lite/bus/logic_axi4_lite_bus_multi_slave.sv:112-206 | Main result for reads at the ports of the bus, from power up, with the upstream skid buffer, the real queues leaving reset later, and the response buffers of all slaves: if every slave answers at its port, in order, what it received, response i answers the i-th request accepted upstream: by the slave whose region owns the address, bounds included, or with the error word if none does |
| `BusReadPort.OutputsStay` | rtl/logic/axi4/lite/bus/logic_axi4_lite_bus_multi_slave_mux.sv:123-146 | Handshake rule at the outputs: a response shown upstream, and a request shown to a slave, stay unchanged until they are taken |
| `BusReadPort.PortRefines` | rtl/logic/axi4/lite/bus/logic_axi4_lite_bus_multi_slave.sv:127-187 | One clock of registers and real queues is one clock of the bus with abstract queues, in reset and out of it |
| `BusReadPort.PortStepInv` | rtl/logic/axi4/lite/bus/logic_axi4_lite_bus_multi_slave.sv:112-206 | Every clock keeps what was accepted equal to what passed the decoder and the buffered request, and the same at every slave |
| `BusReadPort.PortStartInv` | rtl/logic/axi4/lite/bus/logic_axi4_lite_bus_multi_slave.sv:112-206 | Power up establishes that, whatever the queue memories hold |
| `BusReadPort.PortsStart` | rtl/logic/axi4/lite/bus/logic_axi4_lite_bus_multi_slave.sv:112-206 | Such a power-up state exists for any number of slaves |
| `BusWritePort.PortsStart` | rtl/logic/axi4/lite/bus/logic_axi4_lite_bus_multi_slave.sv:112-206 | Such a power-up state exists for any number of slaves |
| `BusWritePort.PortWritesAreAnswered` | rtl/logic/axi4/lite/bus/logic_axi4_lite_bus_multi_slave.sv:112-206 | Main result for writes at the ports of the bus, from power up, with both upstream skid buffers, the real queues and the response buffers: response i answers the i-th address with the i-th data word accepted upstream, data before or after address, by the slave whose region owns the address or with the error word if none does |
| `BusWritePort.OutputsStay` | rtl/logic/axi4/lite/bus/logic_axi4_lite_bus_multi_slave_mux.sv:123-131 | The same for responses, addresses and data words |
| `BusWritePort.PortRefines` | rtl/logic/axi4/lite/bus/logic_axi4_lite_bus_multi_slave.sv:127-187 | One clock of registers and real queues is one clock of the bus with abstract queues |
| `BusWritePort.PortStepInv` | rtl/logic/axi4/lite/bus/logic_axi4_lite_bus_multi_slave.sv:112-206 | Every clock keeps accepted addresses and data equal to what passed the decoder and the buffered words, and the same at every slave |
| `BusWritePort.PortStartInv` | rtl/logic/axi4/lite/bus/logic_axi4_lite_bus_multi_slave.sv:112-206 | Power up establishes that |
| `BusPorts.LaneRefines` | rtl/logic/axi4/lite/bus/logic_axi4_lite_bus_multi_slave.sv:143-172 | A register with the single-clock queue behind it makes the steps of a lane, in reset and out of it |
| `BusPorts.BufferPasses` | rtl/logic/axi4/lite/bus/logic_axi4_lite_bus_multi_slave.sv:112-125 | What entered a skid buffer is what left it and what is inside |
| `BusPorts.GivenStep` | rtl/logic/axi4/lite/bus/logic_axi4_lite_bus_multi_slave.sv:189-206 | What each slave gave is what the mux took and what its response buffer keeps |
| `BusWaits.AwaitStep` | rtl/logic/basic/queue/logic_basic_queue_generic_read.sv:42-112 | A register with its queue that holds a word shows one within four clocks |
| `BusWaits.SettleStep` | rtl/logic/basic/queue/logic_basic_queue_generic_write.sv:32-47 | A lane that gets no more words and holds no more than its memory is ready for good within five clocks, whatever is taken from it |
| `BusWaits.GateStep` | rtl/logic/basic/queue/logic_basic_queue_generic_write.sv:32-47 | The same with more words, as soon as they are taken |
| `BusWaits.SoundStep` | rtl/logic/axi4/lite/bus/logic_axi4_lite_bus_multi_slave_mux.sv:72-104 | The account of a run: clocks gone by never exceed the course and the stalls, and each request takes no more than its share of the stalls before its response leaves |
| `BusReadProgress.ReadsAreServed` | rtl/logic/axi4/lite/bus/logic_axi4_lite_bus_multi_slave.sv:112-206 | Main result on progress of reads, from every state out of reset and for any inputs: if slaves, by refusing requests or by not answering, and the upstream port, by not taking responses, keep no request waiting for more than d clocks in all, n outstanding requests are all answered within 24 + d clocks for each |
| `BusReadProgress.RequestsAreTaken` | rtl/logic/axi4/lite/bus/logic_axi4_lite_bus_multi_slave.sv:112-125 | The port does not shut itself: one clock after that time a request that is offered has been accepted beyond those at the start |
| `BusReadProgress.ClocksStep` | rtl/logic/axi4/lite/bus/logic_axi4_lite_bus_multi_slave.sv:112-206 | Every clock in which the bus is not kept waiting brings the answers of the first m requests closer: through buffer, decoder, three queues, slave register, response buffer, mux and response queue |
| `BusReadProgress.WaitStep` | rtl/logic/axi4/lite/bus/logic_axi4_lite_bus_multi_slave_mux.sv:78-104 | At every clock a count the oldest unanswered request depends on moves on, or its wait gets shorter, or its slave refuses it or does not offer the answer it owes, or the upstream port does not take the answer |
| `BusReadProgress.LiveSoon` | rtl/logic/axi4/lite/bus/logic_axi4_lite_bus_multi_slave.sv:112-206 | Two clocks bring every state of the port invariant, power up included, out of reset |
| `BusWriteProgress.ServedIffNotStuck` | rtl/logic/axi4/lite/bus/logic_axi4_lite_bus_multi_slave.sv:112-206 | Main result on progress of writes, from every state out of reset and for any inputs: if slaves answer only writes they received, and slaves and upstream port keep no write waiting for more than d clocks in all, then within 156 + d clocks for each of n outstanding writes with address and data all of them are answered if and only if the last one is not stuck, that is, not a mapped write whose data word is kept from a choked decoder |
| `BusWriteProgress.ServedOrChoked` | rtl/logic/axi4/lite/bus/logic_axi4_lite_bus_multi_slave_decoder.sv:62-102 | With no condition on how addresses and data are sent: in that time all those writes are answered, or the write half is choked |
| `BusWriteProgress.ServedOrStuck` | rtl/logic/axi4/lite/bus/logic_axi4_lite_bus_multi_slave_decoder.sv:62-102 | The same, sharper: only the last of the complete writes can be left, and only stuck |
| `BusWriteProgress.StuckForEver` | rtl/logic/axi4/lite/bus/logic_axi4_lite_bus_multi_slave_decoder.sv:62-95 | A stuck write is never answered, whatever the ports do later |
| `BusWriteProgress.WritesAreServed` | rtl/logic/axi4/lite/bus/logic_axi4_lite_bus_multi_slave.sv:112-206 | In particular all are answered if at the end the accepted addresses are less than a whole queue ahead of the accepted data |
| `BusWriteProgress.AddressesAreTaken` | rtl/logic/axi4/lite/bus/logic_axi4_lite_bus_multi_slave.sv:112-125 | The port does not shut itself unless it chokes: one clock after that time an address that is offered has been accepted beyond those of the complete writes |
| `BusWriteProgress.ClocksStep` | rtl/logic/axi4/lite/bus/logic_axi4_lite_bus_multi_slave.sv:112-206 | Every clock in which the bus is not kept waiting brings the answers of the first m writes closer, data after its address or before, unless the last of them is stuck |
| `BusWriteProgress.WaitStep` | rtl/logic/axi4/lite/bus/logic_axi4_lite_bus_multi_slave_decoder.sv:62-102 | Unless the last of the first m writes is stuck, at every clock a count the oldest unanswered write depends on moves on, or its wait gets shorter, or a slave or the upstream port keeps it waiting |
| `BusWriteProgress.EnterDataStep` | rtl/logic/axi4/lite/bus/logic_axi4_lite_bus_multi_slave_decoder.sv:62-74 | A data word in the upstream buffer passes the decoder or comes closer to it, while the queues of the ids hold no more than their memory and no slave refuses an address |
| `BusWriteProgress.OverfullStep` | rtl/logic/axi4/lite/bus/logic_axi4_lite_bus_multi_slave_decoder.sv:62-74 | With more ids waiting for data than their queue holds and no data behind the decoder, every clock brings that queue closer to being closed for good |
| `BusWriteProgress.LiveSoon` | rtl/logic/axi4/lite/bus/logic_axi4_lite_bus_multi_slave.sv:112-206 | Two clocks bring every state of the port invariant, power up included, out of reset |
| `BusWriteHang.PowerUpHangs` | rtl/logic/axi4/lite/bus/logic_axi4_lite_bus_multi_slave_decoder.sv:62-74 | Progress of all schedules is false: from power up, any capacity and map, slaves ready at once, an upstream port that offers no data, and addresses until more of them wait than a queue holds, chokes the write half within 26 clocks per place of a queue and 59 more |
| `BusWriteChoke.ChokedForEver` | rtl/logic/axi4/lite/bus/logic_axi4_lite_bus_multi_slave_decoder.sv:62-95 | A choked write half hangs for ever: whatever the inputs, no further address or data word passes the decoder |
| `BusWriteHang.OpensIffNotChoked` | rtl/logic/axi4/lite/bus/logic_axi4_lite_bus_multi_slave_decoder.sv:62-65 | From a state with no data behind the decoder and the gate for data closed, in every run of three clocks or more the gate opens at some clock iff the state is not choked, that is, iff the queue of the ids that wait for data holds no more words than its memory |
| `BusWriteHang.ChokesIffOverfull` | rtl/logic/axi4/lite/bus/logic_axi4_lite_bus_multi_slave_decoder.sv:62-65 | With no data behind the decoder, and neither address nor data offered or buffered, the write half is choked after more than five clocks iff more ids wait for data than their queue holds, register included |
| `BusWriteHang.OverrunChokes` | rtl/logic/axi4/lite/bus/logic_axi4_lite_bus_multi_slave_decoder.sv:62-65 | It is choked as soon as depth + 3 more addresses than data words have passed the decoder |
| `BusWriteHang.OverrunHangs` | rtl/logic/axi4/lite/bus/logic_axi4_lite_bus_multi_slave_decoder.sv:62-95 | The same from every state out of reset without data waiting |
| `BusWriteChoke.ChokedStep` | rtl/logic/axi4/lite/bus/logic_axi4_lite_bus_multi_slave_decoder.sv:62-95 | One clock of a choked write half: it stays choked and nothing passes |
| `BusWriteLead.LeadIff` | rtl/logic/axi4/lite/bus/logic_axi4_lite_bus_multi_slave_decoder.sv:62-95 | Exactly how far addresses may run ahead: from power up, for every capacity the design rule allows and every map with a mapped address, no run whose accepted addresses are at most L ahead of accepted data leaves a write stuck if and only if L is at most the capacity of a queue |
| `BusWriteLead.LeadIsServed` | rtl/logic/axi4/lite/bus/logic_axi4_lite_bus_multi_slave.sv:112-206 | In a run with at most that lead all complete writes are answered in time, from any state of the run out of reset |
| `BusWriteLead.LeadIsSafe` | rtl/logic/axi4/lite/bus/logic_axi4_lite_bus_multi_slave_decoder.sv:62-74 | In a run with at most that lead the write half is never choked: with the address that fills the queue of ids a buffered data word passes too |
| `BusWriteLead.LeadHangs` | rtl/logic/axi4/lite/bus/logic_axi4_lite_bus_multi_slave_decoder.sv:62-95 | One more: a run in which depth + 1 addresses come before the first data word, and the first write is complete and stuck |
| `BusWriteLead.AbreastStep` | rtl/logic/axi4/lite/bus/logic_axi4_lite_bus_multi_slave_decoder.sv:62-74 | With at most that lead every clock keeps the ids that wait for data within their queue |
| `BusUnits.ClockRouter` | rtl/logic/axi4/lite/bus/logic_axi4_lite_bus_multi_slave_mux.sv:217-234 | The loop over slave registers computes the router step and whether the word was taken |
| `BusUnits.Gather` | rtl/logic/axi4/lite/bus/logic_axi4_lite_bus_multi_slave_mux.sv:81-85 | The OR over the valid signals selects the answer of the id, or the error word |
| `BusUnits.ClockLane` | rtl/logic/axi4/lite/bus/logic_axi4_lite_bus_multi_slave_decoder.sv:107-122 | One clock of a register and its queue |
| `BusUnits.ReadPath.constructor` | rtl/logic/axi4/lite/bus/logic_axi4_lite_bus_multi_slave_mux.sv:123-126 | The read half starts empty, with the invariant |
| `BusUnits.ReadPath.Clock` | rtl/logic/axi4/lite/bus/logic_axi4_lite_bus_multi_slave.sv:127-187 | One clock of the read half in place: the histories grow by what crosses, every response so far is the answer of the decoded slave in request order, and the state makes the specified step |
| `BusUnits.ReadPath.ClockMux` | rtl/logic/axi4/lite/bus/logic_axi4_lite_bus_multi_slave_mux.sv:123-177 | Mux registers after the clock and which queue outputs were taken |
| `BusUnits.WritePath.constructor` | rtl/logic/axi4/lite/bus/logic_axi4_lite_bus_multi_slave_mux.sv:106-109 | The write half starts empty, with the invariant |
| `BusUnits.WritePath.Clock` | rtl/logic/axi4/lite/bus/logic_axi4_lite_bus_multi_slave.sv:127-187 | One clock of the write half in place: the histories grow by what crosses, responses keep request order, address and data words of each slave belong to the same writes, and the state makes the specified step |
| `BusUnits.WritePath.ClockMux` | rtl/logic/axi4/lite/bus/logic_axi4_lite_bus_multi_slave_mux.sv:72-121 | Mux registers after the clock and which queue outputs were taken |
| `BusUnits.WritePath.ClockResponse` | rtl/logic/axi4/lite/bus/logic_axi4_lite_bus_multi_slave_mux.sv:106-121 | Response register and queue |
| `WriteAligned.AlignedInOrder` | rtl/logic/axi4/lite/write_aligned/logic_axi4_lite_write_aligned_main.sv:37-77 | Over any run: as many addresses as data words taken, each channel emits a prefix in order, and the emitted counts differ by at most one |
| `WriteAligned.TakenTogether` | rtl/logic/axi4/lite/write_aligned/logic_axi4_lite_write_aligned_main.sv:37-41 | Both upstream handshakes happen at the same clock, exactly when both are valid and both outputs ready; a channel without an offer is ready |
| `WriteAligned.RunConserves` | rtl/logic/axi4/lite/write_aligned/logic_axi4_lite_write_aligned_main.sv:47-77 | Taken words are the emitted ones and the one in the register, on both channels |
| `WriteAligned.WriteAligner.constructor` | rtl/logic/axi4/lite/write_aligned/logic_axi4_lite_write_aligned_main.sv:47-58 | Both registers start without a word |
| `WriteAligned.WriteAligner.Clock` | rtl/logic/axi4/lite/write_aligned/logic_axi4_lite_write_aligned_main.sv:37-77 | Ready signals before the clock and registers after it |
| `PllLock.LockedIsFiltered` | rtl/logic/pll/lock_service/logic_pll_lock_service_unit.sv:107-196 | Main result: locked rises exactly if the service waited for lock and the whole window of samples was high, and falls exactly if it was shown and the whole window was low; it never changes otherwise, whatever the timer does |
| `PllLock.LockIsShown` | rtl/logic/pll/lock_service/logic_pll_lock_service_unit.sv:80-196 | Lock does come: from a service that waits, once samples stay high and the timer is quiet, lock is shown after as many clocks as the filter has stages, plus three |
| `PllLock.LockComes` | rtl/logic/pll/lock_service/logic_pll_lock_service_unit.sv:80-139 | On the way there the phase is waiting or LOCKED, LOCKED after stages + 2 clocks at the latest, and it stays |
| `PllLock.PhaseStep` | rtl/logic/pll/lock_service/logic_pll_lock_service_unit.sv:107-139 | Exactly when each phase is left, in samples and timer beats alone |
| `PllLock.OutputsFollowPhase` | rtl/logic/pll/lock_service/logic_pll_lock_service_unit.sv:180-196 | locked and pll_reset say which phase the clock before began in |
| `PllLock.ResetLasts` | rtl/logic/pll/lock_service/logic_pll_lock_service_unit.sv:107-187 | The PLL is held in reset until the beat of the timer |
| `PllLock.ResetFromPowerUp` | rtl/logic/pll/lock_service/logic_pll_lock_service_unit.sv:107-196 | From power up on too, with lock not shown |
| `PllLock.GivesUp` | rtl/logic/pll/lock_service/logic_pll_lock_service_unit.sv:118-139 | A beat of the timer that meets no full window of high samples ends the wait: two clocks later the PLL is in reset again |
| `PllLock.EntersLocked` | rtl/logic/pll/lock_service/logic_pll_lock_service_unit.sv:118-125 | The phase becomes LOCKED iff it was waiting and the whole window of samples was high |
| `PllLock.LeavesLocked` | rtl/logic/pll/lock_service/logic_pll_lock_service_unit.sv:126-130 | The phase leaves LOCKED iff the whole window of samples was low |
| `PllLock.LockedTakesTime` | rtl/logic/pll/lock_service/logic_pll_lock_service_unit.sv:107-139 | LOCKED is not reachable in fewer clocks than the stages plus two |
| `PllLock.LossOfLockResets` | rtl/logic/pll/lock_service/logic_pll_lock_service_unit.sv:107-196 | The PLL is never in reset while lock is shown; after loss of lock it is in reset, and lock withdrawn, two clocks later |
| `PllLock.TimerIsConfigured` | rtl/logic/pll/lock_service/logic_pll_lock_service_unit.sv:141-167 | The timer is configured exactly at the clock that enters a timed phase, with the duration of that phase |
| `PllLock.FilterHoldsLastSamples` | rtl/logic/pll/lock_service/logic_pll_lock_service_unit.sv:80-87 | The shift register holds exactly the last samples, zeros before the first |
| `PllLock.FlagsFollowFilter` | rtl/logic/pll/lock_service/logic_pll_lock_service_unit.sv:89-105 | Stable is all high, filtered is any high, of the window one clock back |
| `PllLock.WindowIsSteady` | rtl/logic/pll/lock_service/logic_pll_lock_service_unit.sv:89-105 | The reductions speak of runs of equal samples |
| `PllLock.LockService.constructor` | rtl/logic/pll/lock_service/logic_pll_lock_service_unit.sv:80-111 | Reset values |
| `PllLock.LockService.Reduce` | rtl/logic/pll/lock_service/logic_pll_lock_service_unit.sv:94-103 | The reductions over the filter, bit by bit |
| `PllLock.LockService.Clock` | rtl/logic/pll/lock_service/logic_pll_lock_service_unit.sv:71-196 | One clock in place is the specified step, with what is sent to the timer at it; the timer counts only while it is ready |
| `JsonEmitter.EmitIsWellFormed` | src/logic/printer/json.cpp:112-207 | Main result, for every list of rows and levels: the output is one well-formed object under a grammar with exactly one comma between neighbours; reading it gives the grouping, which uses each row once in order up to the first row above the first level, and every value shows its row: name, kind of container, and the text of a leaf |
| `JsonEmitter.ScalarShows` | src/logic/printer/json.cpp:143-187 | A double, or an int without prefix, is printed as it is; an int with 0x or 0b between quotes with as many last digits as its size asks for, zeros in front; anything else between quotes |
| `JsonEmitter.PaddingIsLastDigits` | src/logic/printer/json.cpp:148-177 | Reverse, resize with zeros, reverse leaves the last digits with zeros in front |
| `JsonEmitter.NodesRepresented` | src/logic/printer/json.cpp:129-206 | One value per row in order: members under the names of their rows, elements without, arrays exactly for array, std::vector and std::array types |
| `JsonEmitter.GroupingIff` | src/logic/printer/json.cpp:108-146 | For any levels the printed grouping is the one and only forest of the rows in which a list goes on while rows are at its level or deeper and a row has children exactly if the next one is deeper |
| `JsonEmitter.ForestRoundTrip` | src/logic/printer/json.cpp:112-207 | Emitting the rows of an indented forest and reading the tokens gives the forest |
| `JsonEmitter.IndentedGrouping` | src/logic/printer/json.cpp:108-146 | The printed nesting is that of the levels iff no printed row comes back to a level between a parent and its first child |
| `JsonEmitter.ForestIffConsistent` | src/logic/printer/json.cpp:108-146 | A list of rows encodes an indented forest iff no row lies above the first one and none is misplaced in that sense; the printed text is then that forest |
| `JsonEmitter.AllRowsPrinted` | src/logic/printer/json.cpp:125-196 | Every row is printed iff none lies above the first one |
| `JsonEmitter.MisplacedRow` | src/logic/printer/json.cpp:125-146 | The levels 0, 2, 1 lose their nesting: the third row is printed beside the first |
| `JsonEmitter.LostRow` | src/logic/printer/json.cpp:125-125 | The levels 1, 0 lose their second row |
| `JsonEmitter.IndentedItems` | src/logic/printer/json.cpp:125-196 | The same iff for every list of siblings inside the recursion |
| `JsonEmitter.GroupingRecovers` | src/logic/printer/json.cpp:108-146 | The levels of an indented forest determine it |
| `JsonEmitter.ItemsUseEachRow` | src/logic/printer/json.cpp:125-196 | The recursion over the shared iterator consumes each row once, in order |
| `JsonEmitter.ItemsAreDeep` | src/logic/printer/json.cpp:125-125 | No consumed row lies above the level of its list |
| `JsonEmitter.ParsePrintedNodes` | src/logic/printer/json.cpp:125-206 | Members or elements and their closing token are read back completely |
| `JsonEmitter.ParsePrintedNode` | src/logic/printer/json.cpp:112-207 | A printed value is read back, leaving what follows |
| `JsonEmitter.ParsePrintedForest` | src/logic/printer/json.cpp:112-207 | The outermost object is read back and nothing is left |
| `JsonEmitter.PaddingKeepsNumber` | src/logic/printer/json.cpp:148-177 | Reverse, resize with zeros, reverse keeps the number the digits denote, modulo what fits, in any base |
| `JsonEmitter.HexIsKept` | src/logic/printer/json.cpp:148-163 | A hexadecimal value that fits the size in bits is printed as the same number with one digit per four bits |
| `JsonEmitter.BinaryIsKept` | src/logic/printer/json.cpp:164-177 | A binary value that fits is printed as the same number with one digit per bit |
| `JsonEmitter.Emitter.constructor` | src/logic/printer/json.cpp:60-65 | The emitter starts at the first row without output |
| `JsonEmitter.Emitter.EmitAll` | src/logic/printer/json.cpp:67-78 | The output reads back as one object that represents the grouped rows, whatever was emitted before: row and output are started over |
| `JsonEmitter.Emitter.Print` | src/logic/printer/json.cpp:112-207 | The recursive method with its shared row iterator prints exactly the grouping; it ends because rows run out |
| `JsonEmitter.Emitter.PrintRow` | src/logic/printer/json.cpp:129-187 | One turn of its loop prints one member or element, container or scalar |
| `StreamAgent.DriverMonitorRoundTrip` | src/logic/axi4/stream/rx_driver.cpp:98-188 | Main result, for every ready schedule and every choice of idle clocks without reset: a transfer that ends without timeout has published exactly one packet, the item's typed bytes filled up with null bytes to ceil(n/B) transfers of B bytes, with user signal k of the item, or the blank one behind its last, for transfer k, and the id of the item |
| `StreamAgent.TransfersOnTheBus` | src/logic/axi4/stream/rx_driver.cpp:117-170 | At any time before a timeout transfer k taken on the bus carries bytes kB on with the flags of their types, null bytes behind the last, user signal k, the id, and last exactly if it reaches the end; for every bus size, none included |
| `StreamAgent.TransfersAreSpaced` | src/logic/axi4/stream/rx_driver.cpp:111-174 | Two transfers are apart by exactly the drawn number of ready clocks: none of them offers a transfer, the next ready clock does and draws anew |
| `StreamAgent.ResetEndsTransfer` | src/logic/axi4/stream/rx_driver.cpp:111-188 | A reset ends the transfer: from that clock on nothing is offered |
| `StreamAgent.MonitorGroups` | src/logic/axi4/stream/monitor.cpp:84-124 | Over any run, resets included, the monitor has published exactly the packets of the transfers taken, each ending with a last one, and holds what was begun since |
| `StreamAgent.ResetDiscards` | src/logic/axi4/stream/monitor.cpp:85-87 | A packet published after a reset holds only transfers taken since |
| `StreamAgent.ScheduleDelivers` | src/logic/axi4/stream/rx_driver.cpp:98-188 | The same as a matter of the schedule alone: with idle draws of at most M, no stall longer than the timeout (or no timeout) and ceil(n/B)*(M+1)+1 ready clocks, the item has been published as exactly that packet |
| `StreamAgent.NeverExpires` | src/logic/axi4/stream/rx_driver.cpp:175-187 | On such a schedule the timeout never expires; it counts the stall down |
| `StreamAgent.ReadyRun` | src/logic/axi4/stream/rx_driver.cpp:111-185 | Every ready clock brings a running driver closer to its end |
| `StreamAgent.DriverTerminates` | src/logic/axi4/stream/rx_driver.cpp:98-188 | With a timeout and idle at most M the transfer ends within (ceil(n/B)*(M+1)+1)*(timeout+1) clocks, whatever the ready schedule and the reset |
| `StreamAgent.HeldWhilePatient` | src/logic/axi4/stream/rx_driver.cpp:111-187 | At every clock of every run: an offered transfer that is not taken stays on the bus unchanged iff there is no timeout or ready has been down for at most timeout + 1 clocks |
| `StreamAgent.HandshakeKept` | src/logic/axi4/stream/rx_driver.cpp:111-187 | Over a whole run the handshake rule is kept iff no offered transfer waits longer; so on every schedule without such a stall |
| `StreamAgent.StallIsHeld` | src/logic/axi4/stream/rx_driver.cpp:175-187 | From its first clock on, a stall of any length leaves the transfer on the bus iff it lasts at most timeout + 1 clocks or there is no timeout |
| `StreamAgent.WithdrawnTransfer` | src/logic/axi4/stream/rx_driver.cpp:175-187 | A run that withdraws an untaken transfer: one byte, timeout one, three clocks without ready |
| `StreamAgent.ClocksStep` | src/logic/axi4/stream/rx_driver.cpp:111-185 | The measure over beats, idle and timeout falls at every clock |
| `StreamAgent.ClocksRun` | src/logic/axi4/stream/rx_driver.cpp:111-185 | Over any run it falls by the number of clocks |
| `StreamAgent.BenchRunInv` | src/logic/axi4/stream/rx_driver.cpp:111-185 | At every clock of a run, captured and outstanding transfers make up the item, and the monitor holds what was captured |
| `StreamAgent.DriverStep` | src/logic/axi4/stream/rx_driver.cpp:111-185 | One clock moves exactly the handshaken transfer from outstanding to captured |
| `StreamAgent.Assemble` | src/logic/axi4/stream/monitor.cpp:84-124 | Capturing all transfers from any byte on completes and publishes one packet and leaves none open |
| `StreamAgent.PaddedLength` | src/logic/axi4/stream/rx_driver.cpp:123-155 | The bytes cut into transfers are the item's bytes followed by null bytes up to a multiple of the bus size |
| `StreamAgent.TypesSurviveTheBus` | src/logic/axi4/stream/rx_driver.cpp:126-143 | The four byte types have the keep and strobe flags of the standard, survive encoding, and the flags survive decoding |
| `StreamAgent.SetLanes` | src/logic/axi4/stream/rx_driver.cpp:123-155 | The inner loop sets the lanes of one transfer and advances the index |
| `StreamAgent.DataTransfer` | src/logic/axi4/stream/rx_driver.cpp:98-188 | The loop in place follows the specified run clock by clock, ends at reset, and valid is taken back behind it |
| `StreamAgent.MonitorAgent.constructor` | src/logic/axi4/stream/monitor.cpp:81-82 | The monitor starts without packets |
| `StreamAgent.MonitorAgent.Sample` | src/logic/axi4/stream/monitor.cpp:84-124 | One clock edge of the monitor is the specified step |
| `Bitstreams.Bitstream.constructor` | src/logic/bitstream.cpp:44-47 | The size is rounded up to whole bytes, by fewer than eight bits, and every stored bit is zero |
| `Bitstreams.Bitstream.Assign` | src/logic/bitstream.cpp:185-206 | Byte loop and masked byte write exactly the low bits of the number; all other stored bits stay |
| `Bitstreams.Bitstream.AssignBytes` | src/logic/bitstream.cpp:194-198 | The loop over whole bytes |
| `Bitstreams.Bitstream.AssignPart` | src/logic/bitstream.cpp:200-204 | The masked last byte |
| `Bitstreams.Bitstream.Value` | src/logic/bitstream.cpp:236-257 | OR-ing shifted bytes into a 64-bit word gives the number the low bits denote, up to 64 bits |
| `Bitstreams.AssignAndRead` | src/logic/bitstream.cpp:185-257 | Main result: on one object a number assigned is read back modulo 2^min(b, size), a bit read through a reference is that bit of the number or the old one above, higher bits are unchanged |
| `Bitstreams.OrOntoZeros` | src/logic/bitstream.cpp:246-255 | A shifted byte meets only zeros: the OR places it above the bits read so far |
| `Bitstreams.OrIsSum` | src/logic/bitstream.cpp:246-255 | There the OR equals the addition of the weighted byte |
| `Bitstreams.Bitstream.SetBit` | src/logic/bitstream_reference.cpp:30-43 | Writing through a reference changes that bit and no other |
| `Bitstreams.Bitstream.GetBit` | src/logic/bitstream_reference.cpp:45-50 | Reading through a reference gives that bit |
| `Bitstreams.ShiftDivides` | src/logic/bitstream.cpp:194-198 | The repeated right shift is division by a power of two |
| `Bitstreams.NumberAppend` | src/logic/bitstream.cpp:246-250 | Placing a byte above the bits read so far adds its weighted value |

## Left out

- UVM and SystemC scaffolding (agents, sequencers, sequences, scoreboards, tracing, command line), build scripts and vendor variants: plumbing around the logic modelled here.
- Top-level wrappers and interface assignment macros: wiring only.
- The Avalon-MM bridges: they translate between protocols and share no state machine with the parts modelled here.
- Progress with consumers that wait for valid before they show ready: queue, crossing and skid buffer raise valid only after seeing ready, so progress is stated for a ready that is held.
- BusWriteLead.LeadIff: capacities from four, the least the design rule of the queue allows (`rtl/logic/basic/queue/logic_basic_queue_main.sv:53`); BusWriteLead.LeadHangs holds for any.
- StageDrain.ChainDrains: queues of three words or more; the design rule of the library asks for four.
- The simulation-time assertions that the registered difference of the crossing never steps between zero and all ones: they are statements about the ratio of the clocks, which the model leaves free.
- The read and response channels of the write aligner: one-stage registers, covered by the delay line with one stage.
- Unknown logic values: the model is two-valued. The constant side signals of the PLL timer's configuration stream, and the truncation of the two durations to its width.
- Values of payload registers while their valid flag is down: an optional register stands for both.
- Truncation of map bounds to the address width: the regions of the model are the truncated ones.
- A reset in the middle of a run of a single-clock component: it returns to the initial state, from which every run theorem starts over. The dual-clock FIFO models it.
- Metastability beyond independently torn bits, and physical timing.
- Line breaks and indentation of the JSON text, string escaping, and conversion of the size column from text.
- The driver's idle items, during which the bus is not touched.
- Separate packets per stream id in the monitor: the comparison of bit streams never tells two ids apart, so the map holds one packet at a time, as the model does; tid and tdest are one value here, with the signals of an item that gives no user data as a parameter.
- A stream bus without data bytes: what the driver sends on it is stated (StreamAgent.TransfersOnTheBus), the round trip for one byte or more.
- Copying bit streams from and to memory, resizing, assigning and comparing them.
- Queues.BasicQueue.Clock: the depth is any number from 2 instead of a power of two, and the counter wraps at twice the depth.
- Stages.DelayLine.constructor: the data registers start with a given word, where the source leaves them undefined.
- StreamAgent.DriverMonitorRoundTrip: for transfers that end without timeout and without reset; the recorded time stamps are left out.
- Bitstreams.Bitstream.Value: at most 64 bits are read, since the source shifts a 64-bit number by more than its width beyond that.
