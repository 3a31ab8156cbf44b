/** Single-clock queue: circular memory, occupancy counter, cheap flags, prefetch and output register. */
module Queues {
  import opened Wrapping
  import opened Streams
  import opened Ring

  /** busy is the state FSM_DATA; data is the memory's read register. */
  datatype Queue<T> = Queue(
    ready: bool, writePointer: nat, capacity: nat, almostEmpty: bool, busy: bool, readPointer: nat,
    data: T, valid: bool, out: T, memory: seq<T>)

  predicate WellFormed<T>(q: Queue<T>) {
    |q.memory| >= 2 && q.readPointer < |q.memory| && q.writePointer < |q.memory|
  }

  /** Memory, read register and output data are not reset. */
  function ResetQueue<T>(memory: seq<T>, data: T, out: T): Queue<T> {
    Queue(false, 0, 0, true, false, 0, data, false, out, memory)
  }

  /** The cheap flag: a comparison one clock old and the two lowest bits. */
  predicate Empty<T>(q: Queue<T>) {
    q.almostEmpty && q.capacity % 4 == 0
  }

  predicate WriteEnable<T>(q: Queue<T>, valid: bool) {
    valid && q.ready
  }

  predicate ReadEnable<T>(q: Queue<T>, ready: bool) {
    !Empty(q) && (q.busy ==> ready)
  }

  /** One clock: a word is offered upstream by valid and data, downstream takes one if ready. */
  function QueueNext<T>(q: Queue<T>, valid: bool, data: T, ready: bool): (q': Queue<T>)
    requires WellFormed(q)
    ensures WellFormed(q')
  {
    var depth := |q.memory|;
    var write, read := WriteEnable(q, valid), ReadEnable(q, ready);
    Queue(
      !(q.capacity >= depth - 1),
      if write then (q.writePointer + 1) % depth else q.writePointer,
      if write && !read then (q.capacity + 1) % (2 * depth)
      else if !write && read then (q.capacity - 1) % (2 * depth) else q.capacity,
      q.capacity <= 1,
      if q.busy then !(ready && Empty(q)) else !Empty(q),
      if read then (q.readPointer + 1) % depth else q.readPointer,
      if read then q.memory[q.readPointer] else q.data,
      if ready then q.busy else q.valid,
      if ready then q.data else q.out,
      if write then q.memory[q.writePointer := data] else q.memory)
  }

  ghost predicate Inv<T>(q: Queue<T>) {
    var depth := |q.memory|;
    && WellFormed(q)
    && q.capacity <= depth
    && (q.ready ==> q.capacity < depth)
    && (q.almostEmpty ==> q.capacity <= 2)
    && (!q.almostEmpty ==> q.capacity > 0)
    && q.writePointer == Slot(q.readPointer, q.capacity, depth)
  }

  lemma ResetInv<T>(memory: seq<T>, data: T, out: T)
    requires |memory| >= 2
    ensures Inv(ResetQueue(memory, data, out))
  {
    SlotZero(0, |memory|);
  }

  /** The cheap flags decide exactly as the occupancy itself would. */
  lemma FlagsAreExact<T>(q: Queue<T>, valid: bool)
    requires Inv(q)
    ensures Empty(q) <==> q.capacity == 0
    ensures WriteEnable(q, valid) ==> q.capacity < |q.memory|
  {
  }

  lemma CapacityStep<T>(q: Queue<T>, valid: bool, data: T, ready: bool)
    requires Inv(q)
    ensures QueueNext(q, valid, data, ready).capacity
         == q.capacity + (if WriteEnable(q, valid) then 1 else 0) - (if ReadEnable(q, ready) then 1 else 0)
  {
    var depth := |q.memory|;
    if WriteEnable(q, valid) && !ReadEnable(q, ready) {
      DivModUnique(q.capacity + 1, 2 * depth, 0, q.capacity + 1);
    } else if !WriteEnable(q, valid) && ReadEnable(q, ready) {
      DivModUnique(q.capacity - 1, 2 * depth, 0, q.capacity - 1);
    }
  }

  lemma PointersStep<T>(q: Queue<T>, valid: bool, data: T, ready: bool)
    requires Inv(q)
    ensures var q' := QueueNext(q, valid, data, ready);
            q'.writePointer == Slot(q'.readPointer, q'.capacity, |q.memory|)
  {
    var depth := |q.memory|;
    CapacityStep(q, valid, data, ready);
    SlotStep(q.readPointer, q.capacity, depth);
    if ReadEnable(q, ready) {
      SlotStep(q.readPointer, q.capacity - 1, depth);
    }
  }

  /** Occupancy, flags and pointers stay consistent: no write to a full memory, no read from an empty one. */
  lemma StepInv<T>(q: Queue<T>, valid: bool, data: T, ready: bool)
    requires Inv(q)
    ensures Inv(QueueNext(q, valid, data, ready))
  {
    CapacityStep(q, valid, data, ready);
    PointersStep(q, valid, data, ready);
  }

  /** A writer is only refused when at most two places are left, and refused when none is. */
  lemma RefusedOnlyNearFull<T>(q: Queue<T>, valid: bool, data: T, ready: bool)
    requires Inv(q)
    ensures var q', depth := QueueNext(q, valid, data, ready), |q.memory|;
            && (!q'.ready ==> q'.capacity >= depth - 2)
            && (q'.capacity == depth ==> !q'.ready)
  {
    CapacityStep(q, valid, data, ready);
    StepInv(q, valid, data, ready);
  }

  // ----- content -----

  function Front<T>(q: Queue<T>): seq<T> {
    Word(q.valid, q.out) + Word(q.busy, q.data)
  }

  /** Every word inside, oldest first. */
  function Held<T>(q: Queue<T>): seq<T>
    requires |q.memory| > 0
  {
    Front(q) + Slice(q.memory, q.readPointer, q.capacity)
  }

  function Accepts<T>(q: Queue<T>, valid: bool, data: T): seq<T> {
    Word(WriteEnable(q, valid), data)
  }

  function Delivers<T>(q: Queue<T>, ready: bool): seq<T> {
    Word(q.valid && ready, q.out)
  }

  lemma MemoryRegisters<T>(q: Queue<T>, valid: bool, data: T, ready: bool)
    requires WellFormed(q)
    ensures var q' := QueueNext(q, valid, data, ready);
            && q'.memory == (if WriteEnable(q, valid) then q.memory[q.writePointer := data] else q.memory)
            && q'.readPointer == (if ReadEnable(q, ready) then Slot(q.readPointer, 1, |q.memory|) else q.readPointer)
  {
  }

  /** The memory gives up its first word exactly when a read is enabled. */
  lemma MemoryStep<T>(q: Queue<T>, q': Queue<T>, valid: bool, data: T, ready: bool)
    requires WellFormed(q) && |q'.memory| == |q.memory| && q.capacity <= |q.memory|
    requires q.writePointer == Slot(q.readPointer, q.capacity, |q.memory|)
    requires WriteEnable(q, valid) ==> q.capacity < |q.memory|
    requires ReadEnable(q, ready) ==> q.capacity > 0
    requires q'.memory == if WriteEnable(q, valid) then q.memory[q.writePointer := data] else q.memory
    requires q'.readPointer == if ReadEnable(q, ready) then Slot(q.readPointer, 1, |q.memory|) else q.readPointer
    requires q'.capacity
          == q.capacity + (if WriteEnable(q, valid) then 1 else 0) - (if ReadEnable(q, ready) then 1 else 0)
    ensures Word(ReadEnable(q, ready), q.memory[q.readPointer]) + Slice(q'.memory, q'.readPointer, q'.capacity)
         == Slice(q.memory, q.readPointer, q.capacity) + Accepts(q, valid, data)
  {
    var push := if WriteEnable(q, valid) then Some(data) else None;
    if push.Some? && ReadEnable(q, ready) {
      SlotZero(q.readPointer, |q.memory|);
      SlotsApart(q.readPointer, 0, q.capacity, |q.memory|);
    }
    RingStep(q.memory, q.readPointer, q.capacity, push, ReadEnable(q, ready));
  }

  lemma FrontStep<T>(q: Queue<T>, valid: bool, data: T, ready: bool)
    requires WellFormed(q)
    ensures Delivers(q, ready) + Front(QueueNext(q, valid, data, ready))
         == Front(q) + Word(ReadEnable(q, ready), q.memory[q.readPointer])
  {
  }

  /** No clock loses, duplicates or reorders a word. */
  lemma Conservation<T>(q: Queue<T>, valid: bool, data: T, ready: bool)
    requires Inv(q)
    ensures Delivers(q, ready) + Held(QueueNext(q, valid, data, ready)) == Held(q) + Accepts(q, valid, data)
  {
    var q' := QueueNext(q, valid, data, ready);
    CapacityStep(q, valid, data, ready);
    MemoryRegisters(q, valid, data, ready);
    MemoryStep(q, q', valid, data, ready);
    FrontStep(q, valid, data, ready);
    InSeries(Delivers(q, ready), Front(q), Front(q'), Word(ReadEnable(q, ready), q.memory[q.readPointer]),
             Slice(q.memory, q.readPointer, q.capacity), Slice(q'.memory, q'.readPointer, q'.capacity),
             Accepts(q, valid, data));
  }

  // ----- draining -----

  datatype Input<T> = Input(valid: bool, data: T, ready: bool)

  function Run<T>(q: Queue<T>, inputs: seq<Input<T>>): (q': Queue<T>)
    requires WellFormed(q)
    ensures WellFormed(q')
    decreases |inputs|
  {
    if inputs == [] then q else
    Run(QueueNext(q, inputs[0].valid, inputs[0].data, inputs[0].ready), inputs[1..])
  }

  function Delivered<T>(q: Queue<T>, inputs: seq<Input<T>>): seq<T>
    requires WellFormed(q)
    decreases |inputs|
  {
    if inputs == [] then [] else
    Delivers(q, inputs[0].ready)
    + Delivered(QueueNext(q, inputs[0].valid, inputs[0].data, inputs[0].ready), inputs[1..])
  }

  function Accepted<T>(q: Queue<T>, inputs: seq<Input<T>>): seq<T>
    requires WellFormed(q)
    decreases |inputs|
  {
    if inputs == [] then [] else
    Accepts(q, inputs[0].valid, inputs[0].data)
    + Accepted(QueueNext(q, inputs[0].valid, inputs[0].data, inputs[0].ready), inputs[1..])
  }

  /** Over any run the words delivered, then the words inside, are the words inside at first, then the
      words accepted. */
  lemma {:induction false} QueueIsFifo<T>(q: Queue<T>, inputs: seq<Input<T>>)
    requires Inv(q)
    ensures Inv(Run(q, inputs))
    ensures Delivered(q, inputs) + Held(Run(q, inputs)) == Held(q) + Accepted(q, inputs)
    decreases |inputs|
  {
    if inputs != [] {
      var i := inputs[0];
      var q' := QueueNext(q, i.valid, i.data, i.ready);
      StepInv(q, i.valid, i.data, i.ready);
      Conservation(q, i.valid, i.data, i.ready);
      QueueIsFifo(q', inputs[1..]);
      Prepend(Delivers(q, i.ready), Held(q'), Held(q), Accepts(q, i.valid, i.data),
              Delivered(q', inputs[1..]), Held(Run(q, inputs)), Accepted(q', inputs[1..]));
    }
  }

  /** Clocks that deliver the first n words held take while downstream is ready. */
  function Deadline<T>(q: Queue<T>, n: nat): (clocks: nat)
    ensures clocks <= n + 2
  {
    if n > |Front(q)| then n - |Front(q)| + 2
    else if n > (if q.valid then 1 else 0) then 2
    else if n > 0 then 1 else 0
  }

  lemma DeadlineStep<T>(q: Queue<T>, valid: bool, data: T, n: nat)
    requires Inv(q) && 0 < n <= |Held(q)|
    ensures var q', left := QueueNext(q, valid, data, true), n - |Delivers(q, true)|;
            && left <= |Held(q')|
            && Deadline(q', left) < Deadline(q, n)
  {
    Conservation(q, valid, data, true);
    assert |Held(q)| + |Accepts(q, valid, data)| == |Delivers(q, true)| + |Held(QueueNext(q, valid, data, true))| by {
      assert |Held(q) + Accepts(q, valid, data)| == |Held(q)| + |Accepts(q, valid, data)|;
    }
    FlagsAreExact(q, valid);
  }

  lemma {:induction false} DeadlineMet<T>(q: Queue<T>, n: nat, inputs: seq<Input<T>>)
    requires Inv(q) && n <= |Held(q)| && |inputs| >= Deadline(q, n)
    requires forall k :: 0 <= k < |inputs| ==> inputs[k].ready
    ensures |Delivered(q, inputs)| >= n
    decreases |inputs|
  {
    if n > 0 {
      var i := inputs[0];
      var q' := QueueNext(q, i.valid, i.data, true);
      DeadlineStep(q, i.valid, i.data, n);
      StepInv(q, i.valid, i.data, true);
      DeadlineMet(q', n - |Delivers(q, true)|, inputs[1..]);
    }
  }

  /** Holding ready high for n + 2 clocks delivers all n words held, whatever the writer does. */
  lemma QueueDrains<T>(q: Queue<T>, inputs: seq<Input<T>>)
    requires Inv(q) && |inputs| >= |Held(q)| + 2
    requires forall k :: 0 <= k < |inputs| ==> inputs[k].ready
    ensures Held(q) <= Delivered(q, inputs)
  {
    DeadlineMet(q, |Held(q)|, inputs);
    QueueIsFifo(q, inputs);
    var d, h := Delivered(q, inputs), Held(Run(q, inputs));
    assert (d + h)[..|Held(q)|] == (Held(q) + Accepted(q, inputs))[..|Held(q)|];
    assert d[..|Held(q)|] == Held(q);
  }

  /** The queue as an object. */
  class BasicQueue<T(0)> {
    const memory: array<T>
    var ready: bool
    var writePointer: nat
    var capacity: nat
    var almostEmpty: bool
    var busy: bool
    var readPointer: nat
    var data: T
    var valid: bool
    var out: T

    function State(): Queue<T>
      reads this, memory
    {
      Queue(ready, writePointer, capacity, almostEmpty, busy, readPointer, data, valid, out, memory[..])
    }

    ghost predicate Valid()
      reads this, memory
    {
      Inv(State())
    }

    constructor (depth: nat, data: T, out: T)
      requires depth >= 2
      ensures Valid() && fresh(memory) && memory.Length == depth && State() == ResetQueue(memory[..], data, out)
    {
      memory := new T[depth];
      ready, writePointer, capacity, almostEmpty, busy, readPointer, valid := false, 0, 0, true, false, 0, false;
      this.data, this.out := data, out;
      new;
      ResetInv(memory[..], data, out);
    }

    /** One clock edge; the outputs ready, valid and out are registers. */
    method Clock(rxValid: bool, rxData: T, txReady: bool)
      requires Valid()
      modifies this, memory
      ensures Valid() && State() == QueueNext(old(State()), rxValid, rxData, txReady)
      ensures Delivers(old(State()), txReady) + Held(State())
           == Held(old(State())) + Accepts(old(State()), rxValid, rxData)
    {
      StepInv(State(), rxValid, rxData, txReady);
      Conservation(State(), rxValid, rxData, txReady);
      Update(rxValid, rxData, txReady);
    }

    /** The register transfers of that edge, service by service, all from the values before it. */
    method Update(rxValid: bool, rxData: T, txReady: bool)
      requires WellFormed(State())
      modifies this, memory
      ensures State() == QueueNext(old(State()), rxValid, rxData, txReady)
    {
      var empty := almostEmpty && capacity % 4 == 0;
      var writeEnable := rxValid && ready;
      var readEnable := if busy then !empty && txReady else !empty;
      MemoryService(writeEnable, rxData, readEnable, txReady);
      ControlServices(writeEnable, empty, readEnable, txReady);
    }

    /** The services that keep flags, pointers and the occupancy. */
    method ControlServices(writeEnable: bool, empty: bool, readEnable: bool, txReady: bool)
      requires memory.Length > 0
      modifies `almostEmpty, `readPointer, `busy, `valid, `ready, `writePointer, `capacity
      ensures var depth := memory.Length;
              && ready == !(old(capacity) >= depth - 1)
              && writePointer == (if writeEnable then (old(writePointer) + 1) % depth else old(writePointer))
              && capacity == (if writeEnable && !readEnable then (old(capacity) + 1) % (2 * depth)
                              else if !writeEnable && readEnable then (old(capacity) - 1) % (2 * depth)
                              else old(capacity))
              && almostEmpty == (old(capacity) <= 1)
              && busy == (if old(busy) then !(txReady && empty) else !empty)
              && readPointer == (if readEnable then (old(readPointer) + 1) % depth else old(readPointer))
              && valid == (if txReady then old(busy) else old(valid))
    {
      ReadService(empty, readEnable, txReady);
      WriteService(writeEnable);
      CapacityService(writeEnable, readEnable);
    }

    /** The output register takes the read register before the memory refills it. */
    method MemoryService(writeEnable: bool, rxData: T, readEnable: bool, txReady: bool)
      requires WellFormed(State())
      modifies `data, `out, memory
      ensures out == if txReady then old(data) else old(out)
      ensures data == if readEnable then old(memory[readPointer]) else old(data)
      ensures memory[..] == if writeEnable then old(memory[..])[writePointer := rxData] else old(memory[..])
    {
      if txReady {
        out := data;
      }
      if readEnable {
        data := memory[readPointer];
      }
      if writeEnable {
        memory[writePointer] := rxData;
      }
    }

    method ReadService(empty: bool, readEnable: bool, txReady: bool)
      requires memory.Length > 0
      modifies `almostEmpty, `readPointer, `busy, `valid
      ensures almostEmpty == (capacity <= 1)
      ensures readPointer == if readEnable then (old(readPointer) + 1) % memory.Length else old(readPointer)
      ensures busy == if old(busy) then !(txReady && empty) else !empty
      ensures valid == if txReady then old(busy) else old(valid)
    {
      if txReady {
        valid := busy;
      }
      if !busy {
        busy := !empty;
      } else if txReady && empty {
        busy := false;
      }
      almostEmpty := capacity <= 1;
      if readEnable {
        readPointer := (readPointer + 1) % memory.Length;
      }
    }

    method WriteService(writeEnable: bool)
      requires memory.Length > 0
      modifies `ready, `writePointer
      ensures ready == !(capacity >= memory.Length - 1)
      ensures writePointer == if writeEnable then (old(writePointer) + 1) % memory.Length else old(writePointer)
    {
      ready := !(capacity >= memory.Length - 1);
      if writeEnable {
        writePointer := (writePointer + 1) % memory.Length;
      }
    }

    method CapacityService(writeEnable: bool, readEnable: bool)
      requires memory.Length > 0
      modifies `capacity
      ensures capacity == if writeEnable && !readEnable then (old(capacity) + 1) % (2 * memory.Length)
                          else if !writeEnable && readEnable then (old(capacity) - 1) % (2 * memory.Length)
                          else old(capacity)
    {
      if writeEnable && !readEnable {
        capacity := (capacity + 1) % (2 * memory.Length);
      } else if !writeEnable && readEnable {
        capacity := (capacity - 1) % (2 * memory.Length);
      }
    }
  }
}
