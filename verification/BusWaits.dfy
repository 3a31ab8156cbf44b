/** How long the pieces of the bus keep a word waiting, and the account of clocks both halves are measured by. */
module BusWaits {
  import opened Wrapping
  import opened Streams
  import opened Stages
  import opened BusParts
  import opened BusPorts
  import Queues

  // ----- one lane -----

  /** Clocks until the queue of a lane that holds a word shows one. */
  function Await<T>(l: QueueLane<T>): (n: nat)
    ensures n <= 4
  {
    if l.queue.valid then 0 else if l.queue.busy then 1 else if l.queue.capacity > 0 then 2
    else if l.queue.ready then 3 else 4
  }

  /** Clocks until an empty lane takes a word. */
  function AwaitReady<T>(l: QueueLane<T>): nat {
    if l.queue.ready then 0 else 1
  }

  /** A lane that holds a word, and keeps what it shows until that is taken, comes closer to showing one. */
  lemma AwaitStep<T>(l: QueueLane<T>, load: Option<T>, txReady: bool)
    requires Queues.Inv(l.queue) && Contents(Abstract(l)) != [] && txReady == !l.queue.valid
    ensures Await(QueueLaneNext(l, true, load, txReady)) <= (if Await(l) == 0 then 0 else Await(l) - 1)
  {
    var data := if l.reg.Some? then l.reg.value else l.queue.out;
    Queues.FlagsAreExact(l.queue, l.reg.Some?);
    Queues.CapacityStep(l.queue, l.reg.Some?, data, txReady);
  }

  /** A word that is not asked for comes no further away. */
  lemma AwaitStays<T>(l: QueueLane<T>, load: Option<T>)
    requires Queues.Inv(l.queue) && Contents(Abstract(l)) != []
    ensures Await(QueueLaneNext(l, true, load, false)) <= Await(l)
  {
    var data := if l.reg.Some? then l.reg.value else l.queue.out;
    Queues.FlagsAreExact(l.queue, l.reg.Some?);
    Queues.CapacityStep(l.queue, l.reg.Some?, data, false);
  }

  lemma ReadyStep<T>(l: QueueLane<T>, load: Option<T>, txReady: bool)
    requires Queues.Inv(l.queue) && Contents(Abstract(l)) == []
    ensures AwaitReady(QueueLaneNext(l, true, load, txReady)) == 0
  {
    assert |Queues.Held(l.queue)| >= l.queue.capacity;
  }

  /** The number of words in a lane. */
  function Load<T>(l: QueueLane<T>): nat {
    Bit(l.reg.Some?) + l.queue.capacity + Bit(l.queue.busy) + Bit(l.queue.valid)
  }

  lemma LoadIsContents<T>(l: QueueLane<T>)
    requires Queues.Inv(l.queue)
    ensures Load(l) == |Contents(Abstract(l))| <= |l.queue.memory| + 3
  {
  }

  /** Words in register and memory beyond those with which a queue stays ready. */
  function Excess<T>(l: QueueLane<T>): nat {
    var n := Bit(l.reg.Some?) + l.queue.capacity + 2;
    if n > |l.queue.memory| then n - |l.queue.memory| else 0
  }

  /** Clocks until a lane that gets no more words is ready for good. */
  function Settle<T>(l: QueueLane<T>): nat {
    if Excess(l) == 0 then AwaitReady(l)
    else 3 * Excess(l) - 1 + (if l.queue.capacity > 0 then 0 else if l.queue.ready then 1 else 2)
  }

  lemma SettleBound<T>(l: QueueLane<T>)
    requires Queues.Inv(l.queue) && Load(l) <= |l.queue.memory|
    ensures Settle(l) <= 5
  {
  }

  /** A lane that gets no more words only loses those taken from it; while it holds no more words than its
      memory, it settles whatever is taken. */
  lemma SettleStep<T>(l: QueueLane<T>, txReady: bool)
    requires Queues.Inv(l.queue) && (!l.queue.valid ==> txReady)
    ensures var l' := QueueLaneNext(l, true, None, txReady);
            && Queues.Inv(l'.queue) && |l'.queue.memory| == |l.queue.memory|
            && Load(l') == Load(l) - Bit(l.queue.valid && txReady)
            && (Load(l) <= |l.queue.memory| ==> Settle(l') <= (if Settle(l) == 0 then 0 else Settle(l) - 1))
  {
    var data := if l.reg.Some? then l.reg.value else l.queue.out;
    Queues.StepInv(l.queue, l.reg.Some?, data, txReady);
    Queues.FlagsAreExact(l.queue, l.reg.Some?);
    Queues.CapacityStep(l.queue, l.reg.Some?, data, txReady);
  }

  /** Clocks until a lane that gets no more words, and shows its next one after route clocks, is ready. */
  function GateWait<T>(l: QueueLane<T>, route: nat): nat {
    var depth := |l.queue.memory|;
    if Load(l) <= depth then Settle(l) else 5 * (Load(l) - depth) + 5 + route
  }

  /** While a lane holds too many words, it loses one whenever one is taken, and otherwise the taking is closer. */
  lemma GateStep<T>(l: QueueLane<T>, route: nat, route': nat, taken: bool)
    requires Queues.Inv(l.queue) && route' <= 4 && (taken ==> l.queue.valid)
    requires Load(l) > |l.queue.memory| ==> taken || route' < route
    ensures var l' := QueueLaneNext(l, true, None, TakenOrIdle(l, taken));
            GateWait(l', route') <= (if GateWait(l, route) == 0 then 0 else GateWait(l, route) - 1)
  {
    var l' := QueueLaneNext(l, true, None, TakenOrIdle(l, taken));
    SettleStep(l, TakenOrIdle(l, taken));
    if Load(l') <= |l'.queue.memory| {
      SettleBound(l');
    }
  }

  /** While none is taken and the taking is no closer, it waits no longer. */
  lemma GateStays<T>(l: QueueLane<T>, route: nat)
    requires Queues.Inv(l.queue)
    ensures GateWait(QueueLaneNext(l, true, None, !l.queue.valid), route) <= GateWait(l, route)
  {
    SettleStep(l, !l.queue.valid);
  }

  lemma GateBound<T>(l: QueueLane<T>, route: nat)
    requires Queues.Inv(l.queue) && route <= 4
    ensures GateWait(l, route) <= 24
  {
    if Load(l) <= |l.queue.memory| {
      SettleBound(l);
    }
  }

  // ----- registers and buffers of the slaves -----

  /** A routed request has been sent or stands in the register of its slave. */
  lemma RoutedIsSent<P>(sent: seq<seq<P>>, regs: seq<Option<P>>, items: seq<P>, ids: seq<Id>, n: nat, c: nat, k: nat)
    requires Routed(sent, regs, items, ids, n) && c < n && ids[c] == Some(k) && k < |sent|
    ensures |sent[k]| + |Pending(regs[k])| > Count(ids[..c], k)
  {
    assert sent[k] + Pending(regs[k]) == Share(items[..n], ids[..n], k);
    CountGrows(ids, c, n, k);
  }

  lemma SentGrows<P>(sent: seq<seq<P>>, regs: seq<Option<P>>, slaveReady: seq<bool>, k: nat)
    requires k < |sent| == |regs| == |slaveReady| && slaveReady[k]
    ensures |SentNext(sent, regs, slaveReady)[k]| == |sent[k]| + |Pending(regs[k])|
  {
  }

  /** The slave an id selects is not ready. */
  predicate RefusedBy(id: Option<Id>, slaveReady: seq<bool>) {
    exists k :: 0 <= k < |slaveReady| && id == Some(Some(k)) && !slaveReady[k]
  }

  function BufferWait<T>(b: Buffer<T>): nat {
    if b.buffered || b.ready then 0 else 1
  }

  /** The answer of a slave is kept until it is collected. */
  lemma AnswerStep<T>(b: Buffer<T>, rx: Offer<T>)
    ensures var b' := BufferNext(b, rx, Seen(b, rx).None?); BufferWait(b') == 0
  {
  }

  /** An id and a ready response queue without a collected answer: the slave does not offer it. */
  lemma NotOffered<B>(id: Option<Id>, bs: seq<Buffer<B>>, rx: seq<Offer<B>>, ready: bool, k: nat)
    requires k < |bs| == |rx| && id == Some(Some(k)) && ready && !Collects(id, SeenAll(bs, rx), ready)
    requires BufferWait(bs[k]) == 0
    ensures !bs[k].buffered && !rx[k].valid
  {
    assert SeenAll(bs, rx)[k] == Seen(bs[k], rx[k]);
  }

  // ----- the account of a run -----

  function Left(m: nat, n: nat): nat {
    if n < m then m - n else 0
  }

  /** Counts that grow by at most one, in the order in which a request passes them. */
  lemma LeftStep(m: nat, n: nat, n': nat)
    requires n <= n' <= n + 1
    ensures Left(m, n') <= Left(m, n) && (n < n' && n < m ==> Left(m, n') < Left(m, n))
  {
  }

  /** The clocks so far in which the bus was kept waiting from outside, how many of them the oldest request
      without a response has been through, and the most any has been through. */
  datatype Tally = Tally(stalls: nat, stalling: nat, longest: nat)

  function TallyNext(y: Tally, stalled: bool, answered: bool): Tally {
    var stalling := if answered then 0 else y.stalling + Bit(stalled);
    Tally(y.stalls + Bit(stalled), stalling, Max(y.longest, stalling))
  }

  /** The clocks that so many requests may take if each may take most clocks. */
  function Allowance(most: nat, requests: nat): nat {
    if requests == 0 then 0 else most + Allowance(most, requests - 1)
  }

  lemma {:induction false} AllowanceIsProduct(most: nat, requests: nat)
    ensures Allowance(most, requests) == most * requests
  {
    if requests > 0 {
      AllowanceIsProduct(most, requests - 1);
    }
  }

  lemma {:induction false} AllowanceGrows(most: nat, fewer: nat, more: nat)
    requires fewer <= more
    ensures Allowance(most, fewer) <= Allowance(most, more)
  {
    if fewer < more {
      AllowanceGrows(most, fewer, more - 1);
    }
  }

  /** While some of the first m requests are unanswered, those that are have taken their share of the stalls. */
  predicate InBudget(y: Tally, returned: nat, m: nat, most: nat, budget: nat) {
    y.longest <= most && returned < m ==> y.stalls + Allowance(most, Left(m, returned)) <= budget + y.stalling
  }

  /** While some of the first m requests are unanswered, each clock brings that closer or is a stall: left
      bounds the clocks to come, elapsed counts those gone by. */
  predicate OnCourse(y: Tally, returned: nat, left: nat, elapsed: nat, m: nat, course: nat) {
    returned < m ==> left + elapsed <= course + y.stalls
  }

  predicate Sound(y: Tally, returned: nat, left: nat, elapsed: nat, m: nat, most: nat, course: nat, budget: nat) {
    y.stalling <= y.longest && InBudget(y, returned, m, most, budget) && OnCourse(y, returned, left, elapsed, m, course)
  }

  lemma SoundStep(y: Tally, stalled: bool, returned: nat, left: nat, returned': nat, left': nat,
                  elapsed: nat, m: nat, most: nat, course: nat, budget: nat)
    requires Sound(y, returned, left, elapsed, m, most, course, budget)
    requires returned <= returned' <= returned + 1 && (stalled ==> returned' == returned)
    requires returned < m ==> left' <= left - (if stalled then 0 else 1)
    ensures Sound(TallyNext(y, stalled, returned' > returned), returned', left', elapsed + 1, m, most, course, budget)
  {
  }
}
