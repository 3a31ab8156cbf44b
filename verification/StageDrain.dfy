/** Progress of chains of stream stages: how many ready clocks deliver every word inside. */
module StageDrain {
  import opened Streams
  import opened Queues
  import opened Stages

  /** Queues of depth three or more, which take a word at every clock once they have room. */
  predicate Roomy<T>(c: seq<Stage<T>>) {
    c == [] || ((c[0].QueueStage? ==> |c[0].queue.memory| >= 3) && Roomy(c[1..]))
  }

  predicate AllReady<T>(cycles: seq<Cycle<T>>) {
    forall i :: 0 <= i < |cycles| ==> cycles[i].txReady
  }

  // ----- clocks until a chain is ready for good, while its sink is -----

  /** A queue that reads at every clock: how long until it has room and shows it. */
  function QueueOpening<T>(q: Queue<T>): nat
    requires |q.memory| >= 3
  {
    var room := |q.memory| - 2;
    if q.capacity <= room then (if q.ready then 0 else 1)
    else q.capacity - room + (if q.ready then 2 else 1)
  }

  /** Clocks until every stage of a chain is open, from the far end up. */
  function Opening<T>(c: seq<Stage<T>>): nat
    requires Roomy(c)
  {
    if c == [] then 0 else
    var rest := Opening(c[1..]);
    match c[0]
    case BufferStage(b) => if rest > 0 then rest + 1 else if b.ready then 0 else 1
    case DelayStage(d) => rest
    case QueueStage(q) => if rest > 0 then rest + 4 else QueueOpening(q)
  }

  predicate StageOpen<T>(s: Stage<T>) {
    match s
    case BufferStage(b) => b.ready
    case DelayStage(d) => true
    case QueueStage(q) => |q.memory| >= 3 && QueueOpening(q) == 0
  }

  /** A chain that takes a word at every clock in which its sink does. */
  predicate Open<T>(c: seq<Stage<T>>) {
    c == [] || (StageOpen(c[0]) && Open(c[1..]))
  }

  lemma {:induction false} OpenIsReady<T>(c: seq<Stage<T>>)
    requires Open(c)
    ensures ChainReady(c, true)
  {
    if c != [] {
      OpenIsReady(c[1..]);
    }
  }

  lemma {:induction false} OpenChain<T>(c: seq<Stage<T>>)
    requires Roomy(c) && Opening(c) == 0
    ensures Open(c)
  {
    if c != [] {
      OpenChain(c[1..]);
    }
  }

  lemma QueueOpeningStep<T>(q: Queue<T>, valid: bool, data: T)
    requires Queues.Inv(q) && |q.memory| >= 3
    ensures var q' := QueueNext(q, valid, data, true);
            && Queues.Inv(q') && |q'.memory| == |q.memory| && QueueOpening(q') <= 4
            && QueueOpening(q') <= (if QueueOpening(q) == 0 then 0 else QueueOpening(q) - 1)
  {
    FlagsAreExact(q, valid);
    CapacityStep(q, valid, data, true);
    StepInv(q, valid, data, true);
  }

  lemma QueueOpeningBound<T>(q: Queue<T>, valid: bool, data: T, ready: bool)
    requires Queues.Inv(q) && |q.memory| >= 3
    ensures var q' := QueueNext(q, valid, data, ready); |q'.memory| == |q.memory| && QueueOpening(q') <= 4
  {
    StepInv(q, valid, data, ready);
  }

  /** Every clock with a ready sink brings a chain closer to being open, and an open chain stays open. */
  lemma {:induction false} OpeningStep<T>(c: seq<Stage<T>>, rx: Offer<T>)
    requires ChainShape(c) && ChainInv(c) && Roomy(c)
    ensures var c' := ChainNext(c, rx, true);
            Roomy(c') && Opening(c') <= (if Opening(c) == 0 then 0 else Opening(c) - 1)
  {
    if c != [] {
      var rest, link, ready := c[1..], StageOut(c[0], rx), ChainReady(c[1..], true);
      OpeningStep(rest, link);
      assert ChainNext(c, rx, true)[1..] == ChainNext(rest, link, true);
      if Opening(rest) == 0 {
        OpenChain(rest);
        OpenIsReady(rest);
      }
      match c[0]
      case BufferStage(b) =>
      case DelayStage(d) =>
      case QueueStage(q) =>
        QueueOpeningBound(q, rx.valid, rx.data, ready);
        QueueOpeningStep(q, rx.valid, rx.data);
    }
  }

  lemma StageStaysOpen<T>(s: Stage<T>, rx: Offer<T>)
    requires StageInv(s) && StageOpen(s)
    ensures StageInv(StageNext(s, rx, true)) && StageOpen(StageNext(s, rx, true))
  {
    match s
    case BufferStage(b) =>
    case DelayStage(d) =>
    case QueueStage(q) => QueueOpeningStep(q, rx.valid, rx.data);
  }

  lemma {:induction false} StaysOpen<T>(c: seq<Stage<T>>, rx: Offer<T>)
    requires ChainShape(c) && ChainInv(c) && Open(c)
    ensures Open(ChainNext(c, rx, true))
  {
    if c != [] {
      OpenIsReady(c[1..]);
      StageStaysOpen(c[0], rx);
      StaysOpen(c[1..], StageOut(c[0], rx));
      assert ChainNext(c, rx, true)[1..] == ChainNext(c[1..], StageOut(c[0], rx), true);
    }
  }

  // ----- how full a chain is up to each of its registers -----

  /** The registers a word may wait in. */
  function StageLatency<T>(s: Stage<T>): nat {
    match s
    case BufferStage(b) => 1
    case DelayStage(d) => |d.valid|
    case QueueStage(q) => 3
  }

  function Latency<T>(c: seq<Stage<T>>): nat {
    if c == [] then 0 else StageLatency(c[0]) + Latency(c[1..])
  }

  function DelayFilled(valid: seq<bool>, k: nat): nat
    requires k <= |valid|
  {
    if k == 0 then 0 else Bit(valid[0]) + DelayFilled(valid[1..], k - 1)
  }

  /** The words in the first k registers of a stage; the memory of a queue stands for its first one. */
  function StageFilled<T>(s: Stage<T>, k: nat): nat
    requires k <= StageLatency(s)
  {
    if k == 0 then 0 else
    match s
    case BufferStage(b) => Bit(b.buffered)
    case DelayStage(d) => DelayFilled(d.valid, k)
    case QueueStage(q) => q.capacity + (if k > 1 then Bit(q.busy) else 0) + (if k > 2 then Bit(q.valid) else 0)
  }

  /** The words in the first k registers of a chain. */
  function Filled<T>(c: seq<Stage<T>>, k: nat): nat
    requires k <= Latency(c)
  {
    if c == [] then 0
    else if k <= StageLatency(c[0]) then StageFilled(c[0], k)
    else StageFilled(c[0], StageLatency(c[0])) + Filled(c[1..], k - StageLatency(c[0]))
  }

  lemma {:induction false} DelayFilledIsHeld<T>(valid: seq<bool>, data: seq<T>)
    requires |valid| == |data|
    ensures DelayFilled(valid, |valid|) == |DelayHeld(valid, data)|
  {
    if valid != [] {
      DelayFilledIsHeld(valid[1..], data[1..]);
    }
  }

  lemma StageFilledIsHeld<T>(s: Stage<T>)
    requires StageShape(s)
    ensures StageFilled(s, StageLatency(s)) == |StageHeld(s)|
  {
    match s
    case BufferStage(b) =>
    case DelayStage(d) => DelayFilledIsHeld(d.valid, d.data);
    case QueueStage(q) =>
  }

  lemma {:induction false} FilledIsHeld<T>(c: seq<Stage<T>>)
    requires ChainShape(c)
    ensures Filled(c, Latency(c)) == |ChainHeld(c)|
  {
    if c != [] {
      StageFilledIsHeld(c[0]);
      FilledIsHeld(c[1..]);
      FilledSplit(c, Latency(c[1..]));
    }
  }

  /** The registers behind the first stage, its last one included. */
  lemma FilledSplit<T>(c: seq<Stage<T>>, k: nat)
    requires c != [] && k <= Latency(c[1..])
    ensures Filled(c, StageLatency(c[0]) + k) == StageFilled(c[0], StageLatency(c[0])) + Filled(c[1..], k)
  {
    FilledAtFirst(c[1..]);
  }

  lemma {:induction false} FilledAtFirst<T>(c: seq<Stage<T>>)
    ensures Filled(c, 0) == 0
  {
  }

  lemma {:induction false} DelayFilledGrows(valid: seq<bool>, k: nat)
    requires k <= |valid|
    ensures DelayFilled(valid, k) <= DelayFilled(valid, |valid|)
  {
    if k > 0 {
      DelayFilledGrows(valid[1..], k - 1);
    }
  }

  lemma {:induction false} FilledGrows<T>(c: seq<Stage<T>>, k: nat)
    requires k <= Latency(c)
    ensures Filled(c, k) <= Filled(c, Latency(c))
  {
    if c != [] {
      var lag := StageLatency(c[0]);
      FilledSplit(c, Latency(c[1..]));
      if k <= lag {
        if c[0].DelayStage? {
          DelayFilledGrows(c[0].delay.valid, k);
        }
        assert StageFilled(c[0], k) <= StageFilled(c[0], lag);
      } else {
        FilledGrows(c[1..], k - lag);
      }
    }
  }

  // ----- words flow -----

  /** kept is what the first k registers keep of their words in a clock: no more than those before the last of
      them had, or a word has left. */
  predicate Flows(before: nat, upTo: nat, kept: int) {
    kept <= before || kept < upTo
  }

  lemma {:induction false} DelayPrefix(valid: seq<bool>, n: nat, k: nat)
    requires k <= n <= |valid|
    ensures DelayFilled(valid[..n], k) == DelayFilled(valid, k)
  {
    if k > 0 {
      assert valid[..n][1..] == valid[1..][..n - 1];
      DelayPrefix(valid[1..], n - 1, k - 1);
    }
  }

  lemma DelayFlows<T>(d: Delay<T>, rx: Offer<T>, k: nat)
    requires DelayShape(d) && 0 < k <= |d.valid|
    ensures DelayFilled(DelayNext(d, rx, true).valid, k) == Bit(rx.valid) + DelayFilled(d.valid, k - 1)
  {
    var n := |d.valid| - 1;
    assert DelayNext(d, rx, true).valid[1..] == d.valid[..n];
    DelayPrefix(d.valid, n, k - 1);
  }

  lemma QueueFlows<T>(q: Queue<T>, rx: Offer<T>, k: nat)
    requires Queues.Inv(q) && 0 < k <= 3
    ensures Flows(StageFilled(QueueStage(q), k - 1), StageFilled(QueueStage(q), k),
                  StageFilled(QueueStage(QueueNext(q, rx.valid, rx.data, true)), k) - |Handshake(rx, q.ready)|)
  {
    FlagsAreExact(q, rx.valid);
    CapacityStep(q, rx.valid, rx.data, true);
  }

  lemma StageFlows<T>(s: Stage<T>, rx: Offer<T>, k: nat)
    requires StageInv(s) && StageShape(s) && StageOpen(s) && 0 < k <= StageLatency(s)
    ensures StageLatency(StageNext(s, rx, true)) == StageLatency(s)
    ensures Flows(StageFilled(s, k - 1), StageFilled(s, k),
                  StageFilled(StageNext(s, rx, true), k) - |Handshake(rx, true)|)
  {
    match s
    case BufferStage(b) =>
    case DelayStage(d) => DelayFlows(d, rx, k);
    case QueueStage(q) => QueueFlows(q, rx, k);
  }

  lemma CountsAdd<T>(leaves: seq<T>, held': seq<T>, held: seq<T>, enters: seq<T>)
    requires leaves + held' == held + enters
    ensures |leaves| + |held'| == |held| + |enters|
  {
    assert |leaves + held'| == |held + enters|;
  }

  lemma StageCounts<T>(s: Stage<T>, rx: Offer<T>)
    requires StageInv(s) && StageShape(s) && StageOpen(s)
    ensures var s' := StageNext(s, rx, true);
            && StageLatency(s') == StageLatency(s)
            && |Handshake(StageOut(s, rx), true)| + StageFilled(s', StageLatency(s))
               == StageFilled(s, StageLatency(s)) + |Handshake(rx, true)|
  {
    var s' := StageNext(s, rx, true);
    StageConserves(s, rx, true);
    CountsAdd(Handshake(StageOut(s, rx), true), StageHeld(s'), StageHeld(s), Handshake(rx, StageReady(s, true)));
    StageFilledIsHeld(s);
    StageFilledIsHeld(s');
  }

  lemma {:induction false} LatencyStays<T>(c: seq<Stage<T>>, rx: Offer<T>)
    requires ChainShape(c)
    ensures Latency(ChainNext(c, rx, true)) == Latency(c)
  {
    if c != [] {
      LatencyStays(c[1..], StageOut(c[0], rx));
      assert ChainNext(c, rx, true)[1..] == ChainNext(c[1..], StageOut(c[0], rx), true);
    }
  }

  /** Words flow past every register of an open chain. */
  lemma {:induction false} ChainFlows<T>(c: seq<Stage<T>>, rx: Offer<T>, k: nat)
    requires ChainShape(c) && ChainInv(c) && Open(c) && 0 < k <= Latency(c)
    ensures Latency(ChainNext(c, rx, true)) == Latency(c)
    ensures Flows(Filled(c, k - 1), Filled(c, k), Filled(ChainNext(c, rx, true), k) - |Handshake(rx, true)|)
  {
    var s, rest, link, c' := c[0], c[1..], StageOut(c[0], rx), ChainNext(c, rx, true);
    var lag := StageLatency(s);
    OpenIsReady(rest);
    LatencyStays(c, rx);
    assert c'[0] == StageNext(s, rx, true) && c'[1..] == ChainNext(rest, link, true);
    StageCounts(s, rx);
    if k <= lag {
      StageFlows(s, rx, k);
    } else {
      ChainFlows(rest, link, k - lag);
      FilledSplit(c, k - lag);
      FilledSplit(c, k - 1 - lag);
      FilledSplit(c', k - lag);
    }
  }

  // ----- words in time -----

  /** How many of the first m words must have passed a point, clocks after the first could have. */
  function Due(m: nat, clocks: int): int {
    if clocks < m then clocks else m
  }

  /** passed words have come to the chain; of these, those beyond the first k registers are in time. */
  predicate OnTimeAt<T>(c: seq<Stage<T>>, k: nat, passed: int, m: nat, clocks: int)
    requires k <= Latency(c)
  {
    passed - Filled(c, k) >= Due(m, clocks - k)
  }

  predicate OnTime<T>(c: seq<Stage<T>>, passed: int, m: nat, clocks: int) {
    forall k: nat :: k <= Latency(c) ==> OnTimeAt(c, k, passed, m, clocks)
  }

  lemma OnTimeStep<T>(c: seq<Stage<T>>, rx: Offer<T>, passed: int, m: nat, clocks: int, later: int)
    requires ChainShape(c) && ChainInv(c) && Open(c) && OnTime(c, passed, m, clocks) && passed >= m
    requires later == clocks + 1
    ensures OnTime(ChainNext(c, rx, true), passed + |Handshake(rx, true)|, m, later)
  {
    var c', enters := ChainNext(c, rx, true), |Handshake(rx, true)|;
    var passed' := passed + enters;
    LatencyStays(c, rx);
    forall k: nat | k <= Latency(c') ensures OnTimeAt(c', k, passed', m, later) {
      if k == 0 {
        FilledAtFirst(c');
      } else {
        ChainFlows(c, rx, k);
        assert OnTimeAt(c, k, passed, m, clocks) && OnTimeAt(c, k - 1, passed, m, clocks);
      }
    }
  }

  // ----- whole runs -----

  lemma {:induction false} OpeningRun<T>(c: seq<Stage<T>>, cycles: seq<Cycle<T>>)
    requires ChainShape(c) && ChainInv(c) && Roomy(c) && AllReady(cycles)
    ensures var c' := ChainRun(c, cycles);
            && ChainInv(c') && Roomy(c') && Latency(c') == Latency(c)
            && (Opening(c) <= |cycles| ==> Opening(c') == 0)
    decreases |cycles|
  {
    if cycles != [] {
      var rx := cycles[0].rx;
      OpeningStep(c, rx);
      ChainConserves(c, rx, true);
      LatencyStays(c, rx);
      OpeningRun(ChainNext(c, rx, true), cycles[1..]);
    }
  }

  /** An open chain whose words are in time, after delivered words have left it. */
  ghost predicate Running<T>(c: seq<Stage<T>>, delivered: nat, m: nat, clocks: int) {
    && ChainShape(c) && ChainInv(c) && Open(c)
    && delivered + Filled(c, Latency(c)) >= m && OnTime(c, delivered + Filled(c, Latency(c)), m, clocks)
  }

  lemma CountStep<T>(c: seq<Stage<T>>, rx: Offer<T>)
    requires ChainShape(c) && ChainInv(c) && ChainReady(c, true)
    ensures ChainInv(ChainNext(c, rx, true)) && Latency(ChainNext(c, rx, true)) == Latency(c)
    ensures |Handshake(ChainOut(c, rx), true)| + Filled(ChainNext(c, rx, true), Latency(c))
         == Filled(c, Latency(c)) + |Handshake(rx, true)|
  {
    var c' := ChainNext(c, rx, true);
    ChainConserves(c, rx, true);
    CountsAdd(Handshake(ChainOut(c, rx), true), ChainHeld(c'), ChainHeld(c), Handshake(rx, true));
    LatencyStays(c, rx);
    FilledIsHeld(c);
    FilledIsHeld(c');
  }

  lemma RunningStep<T>(c: seq<Stage<T>>, rx: Offer<T>, delivered: nat, m: nat, clocks: int, later: int)
    requires Running(c, delivered, m, clocks) && later == clocks + 1
    ensures Running(ChainNext(c, rx, true), delivered + |Handshake(ChainOut(c, rx), true)|, m, later)
    ensures Latency(ChainNext(c, rx, true)) == Latency(c)
  {
    OpenIsReady(c);
    CountStep(c, rx);
    OnTimeStep(c, rx, delivered + Filled(c, Latency(c)), m, clocks, later);
    StaysOpen(c, rx);
  }

  lemma RunningEnd<T>(c: seq<Stage<T>>, delivered: nat, m: nat, clocks: int)
    requires Running(c, delivered, m, clocks)
    ensures delivered >= Due(m, clocks - Latency(c))
  {
    assert OnTimeAt(c, Latency(c), delivered + Filled(c, Latency(c)), m, clocks);
  }

  lemma DeliveredStep<T>(c: seq<Stage<T>>, cycles: seq<Cycle<T>>)
    requires ChainShape(c) && cycles != [] && AllReady(cycles)
    ensures AllReady(cycles[1..])
    ensures var c' := ChainNext(c, cycles[0].rx, true);
            |ChainDelivered(c, cycles)|
            == |Handshake(ChainOut(c, cycles[0].rx), true)| + |ChainDelivered(c', cycles[1..])|
  {
  }

  /** The delivered words of an open chain are in time too. */
  lemma {:induction false} OpenRun<T>(c: seq<Stage<T>>, cycles: seq<Cycle<T>>, delivered: nat, m: nat, clocks: int)
    requires ChainShape(c) && Running(c, delivered, m, clocks) && AllReady(cycles)
    ensures delivered + |ChainDelivered(c, cycles)| >= Due(m, clocks - Latency(c) + |cycles|)
    decreases |cycles|
  {
    if cycles == [] {
      RunningEnd(c, delivered, m, clocks);
    } else {
      var rx := cycles[0].rx;
      var leaves := |Handshake(ChainOut(c, rx), true)|;
      RunningStep(c, rx, delivered, m, clocks, clocks + 1);
      DeliveredStep(c, cycles);
      OpenRun(ChainNext(c, rx, true), cycles[1..], delivered + leaves, m, clocks + 1);
    }
  }

  lemma {:induction false} DeliveredSplit<T>(c: seq<Stage<T>>, cycles: seq<Cycle<T>>, n: nat)
    requires ChainShape(c) && n <= |cycles|
    ensures ChainDelivered(c, cycles)
         == ChainDelivered(c, cycles[..n]) + ChainDelivered(ChainRun(c, cycles[..n]), cycles[n..])
    decreases n
  {
    if n == 0 {
      assert cycles[n..] == cycles;
    } else {
      var c' := ChainNext(c, cycles[0].rx, cycles[0].txReady);
      assert cycles[..n][1..] == cycles[1..][..n - 1] && cycles[1..][n - 1..] == cycles[n..];
      DeliveredSplit(c', cycles[1..], n - 1);
      Regroup(Handshake(ChainOut(c, cycles[0].rx), cycles[0].txReady), ChainDelivered(c', cycles[1..][..n - 1]),
              ChainDelivered(ChainRun(c, cycles[..n]), cycles[n..]));
    }
  }

  /** At first nothing is due. */
  lemma OnTimeAtFirst<T>(c: seq<Stage<T>>, delivered: nat, m: nat)
    requires ChainShape(c)
    ensures OnTime(c, delivered + Filled(c, Latency(c)), m, 0)
  {
    var passed := delivered + Filled(c, Latency(c));
    forall k: nat | k <= Latency(c) ensures OnTimeAt(c, k, passed, m, 0) {
      FilledGrows(c, k);
    }
  }

  /** No word is lost in a run. */
  lemma CountRun<T>(c: seq<Stage<T>>, cycles: seq<Cycle<T>>)
    requires ChainShape(c) && ChainInv(c)
    ensures var c' := ChainRun(c, cycles);
            |ChainDelivered(c, cycles)| + Filled(c', Latency(c')) >= |ChainHeld(c)|
  {
    var c' := ChainRun(c, cycles);
    ChainIsFifo(c, cycles);
    CountsAdd(ChainDelivered(c, cycles), ChainHeld(c'), ChainHeld(c), ChainAccepted(c, cycles));
    FilledIsHeld(c');
  }

  /** After the opening clocks a chain runs. */
  lemma OpenedRun<T>(c: seq<Stage<T>>, c': seq<Stage<T>>, cycles: seq<Cycle<T>>, delivered: nat, m: nat)
    requires ChainShape(c) && ChainInv(c) && Roomy(c) && AllReady(cycles) && |cycles| >= Opening(c)
    requires c' == ChainRun(c, cycles) && delivered + Filled(c', Latency(c')) >= m
    ensures Running(c', delivered, m, 0) && Latency(c') == Latency(c)
  {
    OpeningRun(c, cycles);
    OpenChain(c');
    OnTimeAtFirst(c', delivered, m);
  }

  lemma DeliveredLater<T>(c': seq<Stage<T>>, cycles: seq<Cycle<T>>, delivered: nat, m: nat, latency: nat)
    requires ChainShape(c') && Running(c', delivered, m, 0) && AllReady(cycles)
    requires latency == Latency(c') && |cycles| >= m + latency
    ensures delivered + |ChainDelivered(c', cycles)| >= m
  {
    OpenRun(c', cycles, delivered, m, 0);
  }

  lemma DeliveredInParts<T>(c: seq<Stage<T>>, c': seq<Stage<T>>, first: seq<Cycle<T>>, second: seq<Cycle<T>>,
                            delivered: nat, m: nat)
    requires ChainShape(c) && ChainInv(c) && Roomy(c) && AllReady(first) && AllReady(second)
    requires |first| >= Opening(c) && |second| >= m + Latency(c)
    requires c' == ChainRun(c, first) && delivered + Filled(c', Latency(c')) >= m
    ensures delivered + |ChainDelivered(c', second)| >= m
  {
    OpenedRun(c, c', first, delivered, m);
    DeliveredLater(c', second, delivered, m, Latency(c'));
  }

  lemma DeliveredCount<T>(c: seq<Stage<T>>, cycles: seq<Cycle<T>>)
    requires ChainShape(c) && ChainInv(c) && Roomy(c) && AllReady(cycles)
    requires |cycles| >= |ChainHeld(c)| + Opening(c) + Latency(c)
    ensures |ChainDelivered(c, cycles)| >= |ChainHeld(c)|
  {
    var n := Opening(c);
    var first, second := cycles[..n], cycles[n..];
    CountRun(c, first);
    DeliveredInParts(c, ChainRun(c, first), first, second, |ChainDelivered(c, first)|, |ChainHeld(c)|);
    DeliveredSplit(c, cycles, n);
  }

  /** What a stage may add to the delivery of the words inside a chain. */
  function StageCost<T>(s: Stage<T>): nat {
    match s
    case BufferStage(b) => 2
    case DelayStage(d) => |d.valid|
    case QueueStage(q) => 7
  }

  function Cost<T>(c: seq<Stage<T>>): nat {
    if c == [] then 0 else StageCost(c[0]) + Cost(c[1..])
  }

  lemma {:induction false} CostCovers<T>(c: seq<Stage<T>>)
    requires ChainShape(c) && ChainInv(c) && Roomy(c)
    ensures Opening(c) + Latency(c) <= Cost(c)
  {
    if c != [] {
      CostCovers(c[1..]);
    }
  }

  /** Main result on progress of chains: with its sink ready for n clocks and a constant for every stage,
      a chain that holds n words delivers them all, whatever its source does. */
  lemma ChainDrains<T>(c: seq<Stage<T>>, cycles: seq<Cycle<T>>)
    requires ChainShape(c) && ChainInv(c) && Roomy(c) && AllReady(cycles)
    requires |cycles| >= |ChainHeld(c)| + Cost(c)
    ensures ChainHeld(c) <= ChainDelivered(c, cycles)
  {
    CostCovers(c);
    DeliveredCount(c, cycles);
    ChainIsFifo(c, cycles);
    var d, h, held := ChainDelivered(c, cycles), ChainHeld(ChainRun(c, cycles)), ChainHeld(c);
    assert (d + h)[..|held|] == (held + ChainAccepted(c, cycles))[..|held|];
    assert d[..|held|] == held;
  }
}
