/** Stream stages with a valid/ready handshake on both sides: skid buffer, delay line and queue. */
module Stages {
  import opened Streams
  import opened Queues

  /** What an upstream side drives: the valid flag and the data signal. */
  datatype Offer<T> = Offer(valid: bool, data: T)

  // ----- skid buffer -----

  /** buffered is the state FSM_BUFFERED. */
  datatype Buffer<T> = Buffer(buffered: bool, ready: bool, data: T)

  function BufferOut<T>(b: Buffer<T>, rx: Offer<T>): Offer<T> {
    if b.buffered then Offer(true, b.data) else Offer(rx.valid && b.ready, rx.data)
  }

  function BufferNext<T>(b: Buffer<T>, rx: Offer<T>, txReady: bool): Buffer<T> {
    Buffer(
      if b.buffered then !txReady else rx.valid && b.ready && !txReady,
      txReady,
      if b.ready then rx.data else b.data)
  }

  // ----- delay line -----

  /** Stage registers, index 0 next to the input. No stage at all means plain wires. */
  datatype Delay<T> = Delay(valid: seq<bool>, data: seq<T>)

  predicate DelayShape<T>(d: Delay<T>) {
    |d.valid| == |d.data|
  }

  function DelayOut<T>(d: Delay<T>, rx: Offer<T>): Offer<T>
    requires DelayShape(d)
  {
    if d.valid == [] then rx else Offer(d.valid[|d.valid| - 1], d.data[|d.data| - 1])
  }

  function DelayNext<T>(d: Delay<T>, rx: Offer<T>, txReady: bool): (d': Delay<T>)
    requires DelayShape(d)
    ensures DelayShape(d') && |d'.valid| == |d.valid|
  {
    if !txReady || d.valid == [] then d else
    Delay([rx.valid] + d.valid[..|d.valid| - 1], [rx.data] + d.data[..|d.data| - 1])
  }

  /** The valid words in a delay line, oldest first. */
  function DelayHeld<T>(valid: seq<bool>, data: seq<T>): seq<T>
    requires |valid| == |data|
  {
    if valid == [] then [] else DelayHeld(valid[1..], data[1..]) + Word(valid[0], data[0])
  }

  lemma {:induction false} DelayLast<T>(valid: seq<bool>, data: seq<T>)
    requires |valid| == |data| > 0
    ensures var n := |valid| - 1;
            DelayHeld(valid, data) == Word(valid[n], data[n]) + DelayHeld(valid[..n], data[..n])
  {
    var n := |valid| - 1;
    if n > 0 {
      DelayLast(valid[1..], data[1..]);
      assert valid[1..][..n - 1] == valid[..n][1..] && data[1..][..n - 1] == data[..n][1..];
    }
  }

  // ----- any stage -----

  datatype Stage<T> = BufferStage(buffer: Buffer<T>) | DelayStage(delay: Delay<T>) | QueueStage(queue: Queue<T>)

  ghost predicate StageInv<T>(s: Stage<T>) {
    match s
    case BufferStage(b) => b.buffered ==> !b.ready
    case DelayStage(d) => DelayShape(d)
    case QueueStage(q) => Queues.Inv(q)
  }

  predicate StageShape<T>(s: Stage<T>) {
    match s
    case BufferStage(b) => true
    case DelayStage(d) => DelayShape(d)
    case QueueStage(q) => WellFormed(q)
  }

  /** The ready signal shown upstream. */
  predicate StageReady<T>(s: Stage<T>, txReady: bool) {
    match s
    case BufferStage(b) => b.ready
    case DelayStage(d) => txReady
    case QueueStage(q) => q.ready
  }

  /** What is shown downstream. */
  function StageOut<T>(s: Stage<T>, rx: Offer<T>): Offer<T>
    requires StageShape(s)
  {
    match s
    case BufferStage(b) => BufferOut(b, rx)
    case DelayStage(d) => DelayOut(d, rx)
    case QueueStage(q) => Offer(q.valid, q.out)
  }

  function StageNext<T>(s: Stage<T>, rx: Offer<T>, txReady: bool): (s': Stage<T>)
    requires StageShape(s)
    ensures StageShape(s')
  {
    match s
    case BufferStage(b) => BufferStage(BufferNext(b, rx, txReady))
    case DelayStage(d) => DelayStage(DelayNext(d, rx, txReady))
    case QueueStage(q) => QueueStage(QueueNext(q, rx.valid, rx.data, txReady))
  }

  /** The words inside, oldest first. */
  function StageHeld<T>(s: Stage<T>): seq<T>
    requires StageShape(s)
  {
    match s
    case BufferStage(b) => Word(b.buffered, b.data)
    case DelayStage(d) => DelayHeld(d.valid, d.data)
    case QueueStage(q) => Held(q)
  }

  /** The word handed over by a valid/ready handshake. */
  function Handshake<T>(offer: Offer<T>, ready: bool): seq<T> {
    Word(offer.valid && ready, offer.data)
  }

  lemma DelayConserves<T>(d: Delay<T>, rx: Offer<T>, txReady: bool)
    requires DelayShape(d)
    ensures var d' := DelayNext(d, rx, txReady);
            Handshake(DelayOut(d, rx), txReady) + DelayHeld(d'.valid, d'.data)
            == DelayHeld(d.valid, d.data) + Handshake(rx, txReady)
  {
    if txReady && d.valid != [] {
      DelayLast(d.valid, d.data);
      var d' := DelayNext(d, rx, txReady);
      assert d'.valid[1..] == d.valid[..|d.valid| - 1] && d'.data[1..] == d.data[..|d.data| - 1];
    }
  }

  /** Every stage keeps its invariant and conserves words. */
  lemma StageConserves<T>(s: Stage<T>, rx: Offer<T>, txReady: bool)
    requires StageInv(s)
    ensures StageInv(StageNext(s, rx, txReady))
    ensures Handshake(StageOut(s, rx), txReady) + StageHeld(StageNext(s, rx, txReady))
         == StageHeld(s) + Handshake(rx, StageReady(s, txReady))
  {
    match s
    case BufferStage(b) =>
    case DelayStage(d) =>
      DelayConserves(d, rx, txReady);
    case QueueStage(q) =>
      Queues.StepInv(q, rx.valid, rx.data, txReady);
      Queues.Conservation(q, rx.valid, rx.data, txReady);
  }

  /** The handshake rule of AXI4-Stream section 2.2.1: a valid word waits unchanged until it is taken. */
  predicate Stable<T(==)>(offer: Offer<T>, ready: bool, offer': Offer<T>) {
    offer.valid && !ready ==> offer' == offer
  }

  lemma StageStable<T>(s: Stage<T>, rx: Offer<T>, txReady: bool, rx': Offer<T>)
    requires StageInv(s) && Stable(rx, StageReady(s, txReady), rx')
    ensures Stable(StageOut(s, rx), txReady, StageOut(StageNext(s, rx, txReady), rx'))
  {
  }

  // ----- chains of stages, the first one upstream -----

  predicate ChainShape<T>(c: seq<Stage<T>>) {
    c == [] || (StageShape(c[0]) && ChainShape(c[1..]))
  }

  ghost predicate ChainInv<T>(c: seq<Stage<T>>) {
    c == [] || (StageInv(c[0]) && ChainInv(c[1..]))
  }

  /** Ready travels from the last stage to the first. */
  predicate ChainReady<T>(c: seq<Stage<T>>, txReady: bool) {
    if c == [] then txReady else StageReady(c[0], ChainReady(c[1..], txReady))
  }

  /** Valid and data travel from the first stage to the last. */
  function ChainOut<T>(c: seq<Stage<T>>, rx: Offer<T>): Offer<T>
    requires ChainShape(c)
  {
    if c == [] then rx else ChainOut(c[1..], StageOut(c[0], rx))
  }

  function ChainNext<T>(c: seq<Stage<T>>, rx: Offer<T>, txReady: bool): (c': seq<Stage<T>>)
    requires ChainShape(c)
    ensures |c'| == |c| && ChainShape(c')
  {
    if c == [] then [] else
    [StageNext(c[0], rx, ChainReady(c[1..], txReady))] + ChainNext(c[1..], StageOut(c[0], rx), txReady)
  }

  function ChainHeld<T>(c: seq<Stage<T>>): seq<T>
    requires ChainShape(c)
  {
    if c == [] then [] else ChainHeld(c[1..]) + StageHeld(c[0])
  }

  /** One clock of a whole chain. */
  lemma {:induction false} ChainConserves<T>(c: seq<Stage<T>>, rx: Offer<T>, txReady: bool)
    requires ChainShape(c) && ChainInv(c)
    ensures ChainInv(ChainNext(c, rx, txReady))
    ensures Handshake(ChainOut(c, rx), txReady) + ChainHeld(ChainNext(c, rx, txReady))
         == ChainHeld(c) + Handshake(rx, ChainReady(c, txReady))
  {
    if c != [] {
      var rest, link, ready := c[1..], StageOut(c[0], rx), ChainReady(c[1..], txReady);
      StageConserves(c[0], rx, ready);
      ChainConserves(rest, link, txReady);
      var c' := ChainNext(c, rx, txReady);
      assert c'[1..] == ChainNext(rest, link, txReady);
      InSeries(Handshake(ChainOut(rest, link), txReady), ChainHeld(rest), ChainHeld(c'[1..]), Handshake(link, ready),
               StageHeld(c[0]), StageHeld(c'[0]), Handshake(rx, StageReady(c[0], ready)));
    }
  }

  /** If the source obeys the handshake rule, so does the far end of any chain. */
  lemma {:induction false} ChainStable<T>(c: seq<Stage<T>>, rx: Offer<T>, txReady: bool, rx': Offer<T>)
    requires ChainShape(c) && ChainInv(c) && Stable(rx, ChainReady(c, txReady), rx')
    ensures Stable(ChainOut(c, rx), txReady, ChainOut(ChainNext(c, rx, txReady), rx'))
  {
    if c != [] {
      var rest, link, ready := c[1..], StageOut(c[0], rx), ChainReady(c[1..], txReady);
      StageStable(c[0], rx, ready, rx');
      ChainStable(rest, link, txReady, StageOut(StageNext(c[0], rx, ready), rx'));
      assert ChainNext(c, rx, txReady)[1..] == ChainNext(rest, link, txReady);
    }
  }

  datatype Cycle<T> = Cycle(rx: Offer<T>, txReady: bool)

  function ChainRun<T>(c: seq<Stage<T>>, cycles: seq<Cycle<T>>): (c': seq<Stage<T>>)
    requires ChainShape(c)
    ensures ChainShape(c')
    decreases |cycles|
  {
    if cycles == [] then c else ChainRun(ChainNext(c, cycles[0].rx, cycles[0].txReady), cycles[1..])
  }

  function ChainAccepted<T>(c: seq<Stage<T>>, cycles: seq<Cycle<T>>): seq<T>
    requires ChainShape(c)
    decreases |cycles|
  {
    if cycles == [] then [] else
    Handshake(cycles[0].rx, ChainReady(c, cycles[0].txReady))
    + ChainAccepted(ChainNext(c, cycles[0].rx, cycles[0].txReady), cycles[1..])
  }

  function ChainDelivered<T>(c: seq<Stage<T>>, cycles: seq<Cycle<T>>): seq<T>
    requires ChainShape(c)
    decreases |cycles|
  {
    if cycles == [] then [] else
    Handshake(ChainOut(c, cycles[0].rx), cycles[0].txReady)
    + ChainDelivered(ChainNext(c, cycles[0].rx, cycles[0].txReady), cycles[1..])
  }

  /** Any chain of buffers, delay lines and queues is a FIFO, over any run and any handshakes. */
  lemma {:induction false} ChainIsFifo<T>(c: seq<Stage<T>>, cycles: seq<Cycle<T>>)
    requires ChainShape(c) && ChainInv(c)
    ensures ChainInv(ChainRun(c, cycles))
    ensures ChainDelivered(c, cycles) + ChainHeld(ChainRun(c, cycles)) == ChainHeld(c) + ChainAccepted(c, cycles)
    decreases |cycles|
  {
    if cycles != [] {
      var rx, txReady := cycles[0].rx, cycles[0].txReady;
      var c' := ChainNext(c, rx, txReady);
      ChainConserves(c, rx, txReady);
      ChainIsFifo(c', cycles[1..]);
      Prepend(Handshake(ChainOut(c, rx), txReady), ChainHeld(c'), ChainHeld(c), Handshake(rx, ChainReady(c, txReady)),
              ChainDelivered(c', cycles[1..]), ChainHeld(ChainRun(c, cycles)), ChainAccepted(c', cycles[1..]));
    }
  }

  // ----- ready reaches the far end -----

  /** The last k stages are ready when the sink is. */
  predicate Ready<T>(c: seq<Stage<T>>, k: nat) {
    if c == [] then true
    else Ready(c[1..], k) && (k >= |c| ==> StageReady(c[0], ChainReady(c[1..], true)))
  }

  predicate NoQueue<T>(c: seq<Stage<T>>) {
    forall i :: 0 <= i < |c| ==> !c[i].QueueStage?
  }

  lemma {:induction false} AllReady<T>(c: seq<Stage<T>>, k: nat)
    requires Ready(c, k) && k >= |c|
    ensures ChainReady(c, true)
  {
    if c != [] {
      AllReady(c[1..], k);
    }
  }

  lemma {:induction false} ReadySpreads<T>(c: seq<Stage<T>>, rx: Offer<T>, k: nat)
    requires ChainShape(c) && NoQueue(c) && Ready(c, k)
    ensures NoQueue(ChainNext(c, rx, true)) && Ready(ChainNext(c, rx, true), k + 1)
  {
    if c != [] {
      var rest, link, c' := c[1..], StageOut(c[0], rx), ChainNext(c, rx, true);
      ReadySpreads(rest, link, k);
      assert c'[1..] == ChainNext(rest, link, true);
      if k + 1 >= |c| {
        AllReady(rest, k);
        AllReady(c'[1..], k + 1);
      }
    }
  }

  /** Once the sink has been ready for as many clocks as there are stages, a chain of buffers and
      delay lines is ready at every clock. */
  lemma {:induction false} ReadyArrives<T>(c: seq<Stage<T>>, cycles: seq<Cycle<T>>, k: nat)
    requires ChainShape(c) && NoQueue(c) && Ready(c, k) && k + |cycles| >= |c|
    requires forall i :: 0 <= i < |cycles| ==> cycles[i].txReady
    ensures ChainReady(ChainRun(c, cycles), true)
    decreases |cycles|
  {
    if cycles == [] {
      AllReady(c, k);
    } else {
      ReadySpreads(c, cycles[0].rx, k);
      ReadyArrives(ChainNext(c, cycles[0].rx, true), cycles[1..], k + 1);
    }
  }

  lemma {:induction false} NoneReady<T>(c: seq<Stage<T>>)
    ensures Ready(c, 0)
  {
    if c != [] {
      NoneReady(c[1..]);
    }
  }

  lemma ChainBecomesReady<T>(c: seq<Stage<T>>, cycles: seq<Cycle<T>>)
    requires ChainShape(c) && NoQueue(c) && |cycles| >= |c|
    requires forall i :: 0 <= i < |cycles| ==> cycles[i].txReady
    ensures ChainReady(ChainRun(c, cycles), true)
  {
    NoneReady(c);
    ReadyArrives(c, cycles, 0);
  }

  // ----- the stages as objects -----

  class SkidBuffer<T> {
    var buffered: bool
    var ready: bool
    var data: T

    function State(): Buffer<T>
      reads this
    {
      Buffer(buffered, ready, data)
    }

    ghost predicate Valid()
      reads this
    {
      buffered ==> !ready
    }

    constructor (data: T)
      ensures Valid() && State() == Buffer(false, false, data)
    {
      buffered, ready, this.data := false, false, data;
    }

    /** One clock edge, from any state of the registers; tx is what the outputs showed before it. */
    method Clock(rx: Offer<T>, txReady: bool) returns (tx: Offer<T>)
      modifies this
      ensures Valid() && tx == BufferOut(old(State()), rx) && State() == BufferNext(old(State()), rx, txReady)
    {
      if buffered {
        tx := Offer(true, data);
      } else {
        tx := Offer(rx.valid && ready, rx.data);
      }
      if !buffered {
        if rx.valid && ready && !txReady {
          buffered := true;
        }
      } else if txReady {
        buffered := false;
      }
      if ready {
        data := rx.data;
      }
      ready := txReady;
    }
  }

  class DelayLine<T> {
    const valid: array<bool>
    const data: array<T>

    ghost predicate Valid()
      reads this
    {
      valid.Length == data.Length && valid as object != data
    }

    ghost function State(): Delay<T>
      reads this, valid, data
    {
      Delay(valid[..], data[..])
    }

    constructor (stages: nat, word: T)
      ensures Valid() && fresh(valid) && fresh(data)
      ensures State() == Delay(seq(stages, _ => false), seq(stages, _ => word))
    {
      var v := new bool[stages](_ => false);
      var d := new T[stages](_ => word);
      valid, data := v, d;
    }

    /** One clock edge: every stage takes its predecessor's registers if downstream is ready. */
    method Clock(rx: Offer<T>, txReady: bool) returns (tx: Offer<T>)
      requires Valid()
      modifies valid, data
      ensures Valid() && tx == DelayOut(old(State()), rx) && State() == DelayNext(old(State()), rx, txReady)
    {
      var stages := valid.Length;
      tx := if stages == 0 then rx else Offer(valid[stages - 1], data[stages - 1]);
      if txReady && stages > 0 {
        ShiftIn(valid, rx.valid);
        ShiftIn(data, rx.data);
      }
    }
  }
}
