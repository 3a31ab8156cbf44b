/** The pieces the AXI4-Lite bus is made of: address map, register lanes with queues, router, collector. */
module BusParts {
  import opened Streams
  import Queues

  // ----- address map -----

  /** The addresses low <= a < high belong to the slave. */
  datatype Region = Region(low: nat, high: nat)

  /** A decoded slave number; None when no entry of the map matches. */
  type Id = Option<nat>

  /** The slave of an address: where regions overlap the last entry wins. */
  function Decode(regions: seq<Region>, address: nat): (id: Id)
    ensures id.Some? ==> id.value < |regions| && regions[id.value].low <= address < regions[id.value].high
    ensures id.Some? ==> forall k :: id.value < k < |regions| ==> !(regions[k].low <= address < regions[k].high)
    ensures id.None? ==> forall k :: 0 <= k < |regions| ==> !(regions[k].low <= address < regions[k].high)
  {
    if regions == [] then None else
    var last := |regions| - 1;
    if regions[last].low <= address < regions[last].high then Some(last) else Decode(regions[..last], address)
  }

  /** The address lies in the region of slave k, lower bound included and upper bound not, and in no later one. */
  predicate Owns(regions: seq<Region>, address: nat, k: nat) {
    && k < |regions| && regions[k].low <= address < regions[k].high
    && forall j :: k < j < |regions| ==> address < regions[j].low || regions[j].high <= address
  }

  predicate Unowned(regions: seq<Region>, address: nat) {
    forall k :: 0 <= k < |regions| ==> address < regions[k].low || regions[k].high <= address
  }

  /** Every address has one owner or none, and decoding finds it. */
  lemma DecodeFindsOwner(regions: seq<Region>, address: nat)
    ensures forall k: nat :: Owns(regions, address, k) <==> Decode(regions, address) == Some(k)
    ensures Unowned(regions, address) <==> Decode(regions, address) == None
  {
    forall k: nat ensures Owns(regions, address, k) <==> Decode(regions, address) == Some(k) {
      var id := Decode(regions, address);
      if Owns(regions, address, k) {
        assert id.Some? && id.value <= k && k <= id.value;
      }
    }
  }

  /** The decoder's loop over the map, overwriting the result at every match. */
  method Lookup(regions: seq<Region>, address: nat) returns (id: Id)
    ensures id == Decode(regions, address)
    ensures id.Some? ==> Owns(regions, address, id.value)
    ensures id.None? ==> Unowned(regions, address)
  {
    id := None;
    for i := 0 to |regions|
      invariant id == Decode(regions[..i], address)
    {
      assert regions[..i + 1][..i] == regions[..i];
      if regions[i].low <= address && address < regions[i].high {
        id := Some(i);
      }
    }
    assert regions[..|regions|] == regions;
  }

  /** A request: the address decides the slave, the rest is carried along. */
  datatype Request<P> = Request(address: nat, payload: P)

  function Ids<P>(regions: seq<Region>, requests: seq<Request<P>>): (ids: seq<Id>)
    ensures |ids| == |requests|
  {
    seq(|requests|, i requires 0 <= i < |requests| => Decode(regions, requests[i].address))
  }

  lemma IdsAppend<P>(regions: seq<Region>, requests: seq<Request<P>>, more: seq<Request<P>>)
    ensures Ids(regions, requests + more) == Ids(regions, requests) + Ids(regions, more)
  {
  }

  // ----- a lane: an output register feeding a queue -----

  /** queue is the content of the FIFO behind the register, oldest word first. */
  datatype Lane<T> = Lane(reg: Option<T>, queue: seq<T>)

  function Contents<T>(l: Lane<T>): seq<T> {
    l.queue + Pending(l.reg)
  }

  /** What the queue's output shows; a queue may hide its first word for as long as it likes. */
  function Shown<T>(l: Lane<T>, show: bool): (head: Option<T>)
    ensures head.Some? ==> l.queue != [] && head.value == l.queue[0]
  {
    if show && l.queue != [] then Some(l.queue[0]) else None
  }

  /** ready is the queue's input ready, load what the register would take, pop a handshake at the output. */
  function LaneNext<T>(l: Lane<T>, ready: bool, load: Option<T>, pop: bool): Lane<T>
    requires pop ==> l.queue != []
  {
    Lane(
      if ready then load else l.reg,
      (if pop then l.queue[1..] else l.queue) + (if ready then Pending(l.reg) else []))
  }

  /** The single-clock queue behaves as the queue of a lane: it shows only its oldest word, and
      a clock removes that word if it is taken and appends the word accepted. */
  lemma QueueServesLane<T>(q: Queues.Queue<T>, valid: bool, data: T, ready: bool)
    requires Queues.Inv(q)
    ensures var l, pop := Lane(None, Queues.Held(q)), q.valid && ready;
            && (q.valid ==> Shown(l, true) == Some(q.out))
            && Queues.Held(Queues.QueueNext(q, valid, data, ready))
               == LaneNext(Lane(if valid then Some(data) else None, l.queue), q.ready, None, pop).queue
  {
    Queues.Conservation(q, valid, data, ready);
    var held, held' := Queues.Held(q), Queues.Held(Queues.QueueNext(q, valid, data, ready));
    var leaves := Queues.Delivers(q, ready);
    assert (leaves + held')[|leaves|..] == held';
    if q.valid {
      assert held[0] == q.out;
      assert (held + Queues.Accepts(q, valid, data))[1..] == held[1..] + Queues.Accepts(q, valid, data);
    }
  }

  lemma LaneConserves<T>(l: Lane<T>, ready: bool, load: Option<T>, pop: bool)
    requires pop ==> l.queue != []
    ensures (if pop then [l.queue[0]] else []) + Contents(LaneNext(l, ready, load, pop))
         == Contents(l) + (if ready then Pending(load) else [])
  {
  }

  /** A lane that holds the words of a history from a position on keeps doing so. */
  lemma LaneTracks<T>(l: Lane<T>, ready: bool, load: Option<T>, pop: bool, all: seq<T>, from: nat, entered: seq<T>)
    requires pop ==> l.queue != []
    requires from <= |all| && Contents(l) == all[from..]
    requires entered == if ready then Pending(load) else []
    ensures var from' := if pop then from + 1 else from;
            from' <= |all + entered| && Contents(LaneNext(l, ready, load, pop)) == (all + entered)[from'..]
    ensures pop ==> from < |all| && l.queue[0] == all[from]
  {
    LaneConserves(l, ready, load, pop);
    var popped := if pop then [l.queue[0]] else [];
    var rest := Contents(LaneNext(l, ready, load, pop));
    assert (all + entered)[from..] == Contents(l) + entered == popped + rest;
    if pop {
      assert l.queue[0] == Contents(l)[0];
      assert (all + entered)[from + 1..] == (all + entered)[from..][1..];
    }
  }

  /** Lanes loaded in lock step: a word enters each of them exactly when all of them are ready. */
  lemma LockStep<T>(l: Lane<T>, ready: bool, others: bool, offer: Option<T>, pop: bool,
                    all: seq<T>, from: nat, entered: seq<T>)
    requires pop ==> l.queue != []
    requires from <= |all| && Contents(l) == all[from..]
    requires entered == if offer.Some? && ready && others then [offer.value] else []
    ensures var from' := if pop then from + 1 else from;
            && from' <= |all + entered|
            && Contents(LaneNext(l, ready, if others then offer else None, pop)) == (all + entered)[from'..]
    ensures pop ==> from < |all| && l.queue[0] == all[from]
  {
    LaneTracks(l, ready, if others then offer else None, pop, all, from, entered);
  }

  /** What a tracked lane shows is the next word of its history. */
  lemma HeadOf<T>(l: Lane<T>, show: bool, all: seq<T>, from: nat)
    requires from <= |all| && Contents(l) == all[from..]
    ensures Shown(l, show).Some? ==> from < |all| && Shown(l, show).value == all[from]
  {
    assert Shown(l, show).Some? ==> l.queue[0] == Contents(l)[0];
  }

  // ----- router: one register per slave -----

  /** The selected slave's register can be loaded. */
  predicate CanSend(id: Id, slaveReady: seq<bool>) {
    id.None? || (id.value < |slaveReady| && slaveReady[id.value])
  }

  /** A payload and an id leave their queues together. */
  predicate Routes<P>(payload: Option<P>, id: Option<Id>, slaveReady: seq<bool>) {
    payload.Some? && id.Some? && CanSend(id.value, slaveReady)
  }

  function RouterNext<P>(regs: seq<Option<P>>, slaveReady: seq<bool>, payload: Option<P>,
                         id: Option<Id>): (regs': seq<Option<P>>)
    requires |slaveReady| == |regs|
    ensures |regs'| == |regs|
  {
    seq(|regs|, k requires 0 <= k < |regs| =>
      if !slaveReady[k] then regs[k] else if id == Some(Some(k)) then payload else None)
  }

  /** The word slave k takes at this edge. */
  function SentTo<P>(regs: seq<Option<P>>, slaveReady: seq<bool>, k: nat): seq<P>
    requires k < |slaveReady| == |regs|
  {
    if slaveReady[k] then Pending(regs[k]) else []
  }

  lemma RouterConserves<P>(regs: seq<Option<P>>, slaveReady: seq<bool>, payload: Option<P>, id: Option<Id>, k: nat)
    requires k < |slaveReady| == |regs|
    ensures SentTo(regs, slaveReady, k) + Pending(RouterNext(regs, slaveReady, payload, id)[k])
         == Pending(regs[k]) + (if Routes(payload, id, slaveReady) && id == Some(Some(k)) then [payload.value] else [])
  {
  }

  // ----- collector: answers are taken in the order of the ids -----

  predicate HasAnswer<B>(id: Id, answers: seq<Option<B>>) {
    id.None? || (id.value < |answers| && answers[id.value].Some?)
  }

  /** The answer for an id: the slave's own, or the error word when nothing was mapped. */
  function AnswerFor<B>(id: Id, answers: seq<Option<B>>, unmapped: B): B
    requires HasAnswer(id, answers)
  {
    if id.None? then unmapped else answers[id.value].value
  }

  /** What the response register loads while its queue is ready. */
  function CollectorLoad<B>(id: Option<Id>, answers: seq<Option<B>>, unmapped: B): Option<B> {
    if id.Some? && HasAnswer(id.value, answers) then Some(AnswerFor(id.value, answers, unmapped)) else None
  }

  predicate Collects<B>(id: Option<Id>, answers: seq<Option<B>>, ready: bool) {
    id.Some? && ready && HasAnswer(id.value, answers)
  }

  /** The answer taken from slave k at this edge. */
  function TakenFrom<B>(id: Option<Id>, answers: seq<Option<B>>, ready: bool, k: nat): seq<B>
    requires k < |answers|
  {
    if ready && id == Some(Some(k)) then Pending(answers[k]) else []
  }

  // ----- shares of a request history -----

  /** How many of the ids select slave k. */
  function Count(ids: seq<Id>, k: nat): (n: nat)
    ensures n <= |ids|
  {
    if ids == [] then 0 else Count(ids[..|ids| - 1], k) + (if ids[|ids| - 1] == Some(k) then 1 else 0)
  }

  /** The items whose ids select slave k, in order. */
  function Share<P>(items: seq<P>, ids: seq<Id>, k: nat): (s: seq<P>)
    requires |items| == |ids|
    ensures |s| == Count(ids, k)
  {
    if items == [] then [] else
    var n := |items| - 1;
    Share(items[..n], ids[..n], k) + (if ids[n] == Some(k) then [items[n]] else [])
  }

  /** The place of request i among the requests of its own slave. */
  function Place(ids: seq<Id>, i: nat): nat
    requires i < |ids| && ids[i].Some?
  {
    Count(ids[..i], ids[i].value)
  }

  lemma {:induction false} CountGrows(ids: seq<Id>, i: nat, n: nat, k: nat)
    requires i <= n <= |ids|
    ensures Count(ids[..i], k) <= Count(ids[..n], k)
    ensures i < n && ids[i] == Some(k) ==> Count(ids[..i], k) < Count(ids[..n], k)
  {
    if i < n {
      assert ids[..n][..n - 1] == ids[..n - 1];
      CountGrows(ids, i, n - 1, k);
    }
  }

  /** In the share of its slave, request i stands at its place. */
  lemma {:induction false} ShareAtPlace<P>(items: seq<P>, ids: seq<Id>, i: nat)
    requires i < |items| == |ids| && ids[i].Some?
    ensures Place(ids, i) < |Share(items, ids, ids[i].value)|
    ensures Share(items, ids, ids[i].value)[Place(ids, i)] == items[i]
  {
    var n := |items| - 1;
    if i < n {
      ShareAtPlace(items[..n], ids[..n], i);
      assert ids[..n][..i] == ids[..i];
    }
  }

  /** The request that is number j among those of slave k. */
  function Origin(ids: seq<Id>, k: nat, j: nat): (i: nat)
    requires j < Count(ids, k)
    ensures i < |ids| && ids[i] == Some(k) && Place(ids, i) == j
  {
    var last := |ids| - 1;
    if ids[last] == Some(k) && Count(ids[..last], k) == j then last else
    var i := Origin(ids[..last], k, j);
    assert ids[..last][..i] == ids[..i];
    i
  }

  /** Item j received by slave k, by its register or by its history, is the item of the same origin. */
  lemma ReceivedFromOrigin<P>(sent: seq<seq<P>>, regs: seq<Option<P>>, items: seq<P>, ids: seq<Id>, n: nat, k: nat,
                              j: nat)
    requires Routed(sent, regs, items, ids, n) && k < |sent| && j < |sent[k]|
    ensures j < Count(ids, k) && Origin(ids, k, j) < n && sent[k][j] == items[Origin(ids, k, j)]
  {
    CountGrows(ids, n, |ids|, k);
    assert ids[..|ids|] == ids;
    assert sent[k] + Pending(regs[k]) == Share(items[..n], ids[..n], k);
    ReceivedAtPlace(sent, regs, items, ids, n, Origin(ids, k, j));
  }

  /** One more routed item extends the share of its own slave only. */
  lemma ShareStep<P>(items: seq<P>, ids: seq<Id>, n: nat, k: nat)
    requires n < |items| && n < |ids|
    ensures Share(items[..n + 1], ids[..n + 1], k)
         == Share(items[..n], ids[..n], k) + (if ids[n] == Some(k) then [items[n]] else [])
  {
    assert items[..n + 1][..n] == items[..n] && ids[..n + 1][..n] == ids[..n];
  }

  /** The i-th response is the answer slave ids[i] gave to its own request number Place(ids, i). */
  ghost predicate InRequestOrder<B(!new)>(done: seq<B>, ids: seq<Id>, answers: seq<seq<B>>, unmapped: B) {
    && |done| <= |ids|
    && forall i :: 0 <= i < |done| ==> IsAnswer(done[i], ids, i, answers, unmapped)
  }

  ghost predicate IsAnswer<B(!new)>(b: B, ids: seq<Id>, i: nat, answers: seq<seq<B>>, unmapped: B)
    requires i < |ids|
  {
    match ids[i]
    case None => b == unmapped
    case Some(k) => k < |answers| && Place(ids, i) < |answers[k]| && b == answers[k][Place(ids, i)]
  }

  // ----- histories kept beside the router and the collector -----

  /** Everything sent to a slave, then what its register holds, is its share of the first n items. */
  ghost predicate Routed<P>(sent: seq<seq<P>>, regs: seq<Option<P>>, items: seq<P>, ids: seq<Id>, n: nat) {
    && |sent| == |regs| && n <= |items| && n <= |ids|
    && forall k :: 0 <= k < |sent| ==> sent[k] + Pending(regs[k]) == Share(items[..n], ids[..n], k)
  }

  function SentNext<P>(sent: seq<seq<P>>, regs: seq<Option<P>>, slaveReady: seq<bool>): (sent': seq<seq<P>>)
    requires |sent| == |regs| == |slaveReady|
    ensures |sent'| == |sent|
  {
    seq(|sent|, k requires 0 <= k < |sent| => sent[k] + SentTo(regs, slaveReady, k))
  }

  lemma RouterTracks<P>(sent: seq<seq<P>>, regs: seq<Option<P>>, items: seq<P>, ids: seq<Id>, n: nat,
                        slaveReady: seq<bool>, payload: Option<P>, id: Option<Id>)
    requires Routed(sent, regs, items, ids, n) && |slaveReady| == |regs|
    requires payload.Some? ==> n < |items| && payload.value == items[n]
    requires id.Some? ==> n < |ids| && id.value == ids[n]
    ensures Routed(SentNext(sent, regs, slaveReady), RouterNext(regs, slaveReady, payload, id), items, ids,
                   if Routes(payload, id, slaveReady) then n + 1 else n)
  {
    var regs' := RouterNext(regs, slaveReady, payload, id);
    forall k | 0 <= k < |sent|
      ensures sent[k] + SentTo(regs, slaveReady, k) + Pending(regs'[k])
           == Share(items[..n], ids[..n], k)
              + (if Routes(payload, id, slaveReady) && id == Some(Some(k)) then [payload.value] else [])
    {
      RouterConserves(regs, slaveReady, payload, id, k);
      assert sent[k] + SentTo(regs, slaveReady, k) + Pending(regs'[k])
          == sent[k] + (SentTo(regs, slaveReady, k) + Pending(regs'[k]));
    }
    if Routes(payload, id, slaveReady) {
      forall k | 0 <= k < |sent| ensures Share(items[..n + 1], ids[..n + 1], k)
          == Share(items[..n], ids[..n], k) + (if id == Some(Some(k)) then [payload.value] else []) {
        ShareStep(items, ids, n, k);
      }
    }
  }

  /** What a slave has received at the place of item i is item i. */
  lemma ReceivedAtPlace<P>(sent: seq<seq<P>>, regs: seq<Option<P>>, items: seq<P>, ids: seq<Id>, n: nat, i: nat)
    requires Routed(sent, regs, items, ids, n)
    requires i < |ids| && ids[i].Some? && ids[i].value < |sent| && Place(ids, i) < |sent[ids[i].value]|
    ensures i < n && sent[ids[i].value][Place(ids, i)] == items[i]
  {
    var k := ids[i].value;
    var share := Share(items[..n], ids[..n], k);
    assert sent[k] + Pending(regs[k]) == share;
    if i >= n {
      CountGrows(ids, n, i, k);
      assert |share| == Count(ids[..n], k) <= Place(ids, i);
    } else {
      assert ids[..n][..i] == ids[..i];
      ShareAtPlace(items[..n], ids[..n], i);
      assert sent[k][Place(ids, i)] == share[Place(ids, i)];
    }
  }

  lemma RoutedGrows<P>(sent: seq<seq<P>>, regs: seq<Option<P>>, items: seq<P>, ids: seq<Id>, n: nat,
                       moreItems: seq<P>, moreIds: seq<Id>)
    requires Routed(sent, regs, items, ids, n)
    ensures Routed(sent, regs, items + moreItems, ids + moreIds, n)
  {
    assert (items + moreItems)[..n] == items[..n] && (ids + moreIds)[..n] == ids[..n];
  }

  /** The first n responses are determined, and each slave gave as many answers as it had requests among them. */
  ghost predicate Collected<B(!new)>(done: seq<B>, answers: seq<seq<B>>, ids: seq<Id>, n: nat, unmapped: B) {
    && |done| == n && InRequestOrder(done, ids, answers, unmapped)
    && forall k :: 0 <= k < |answers| ==> |answers[k]| == Count(ids[..n], k)
  }

  function AnswersNext<B>(taken: seq<seq<B>>, id: Option<Id>, answers: seq<Option<B>>,
                          ready: bool): (taken': seq<seq<B>>)
    requires |taken| == |answers|
    ensures |taken'| == |taken|
  {
    seq(|taken|, k requires 0 <= k < |taken| => taken[k] + TakenFrom(id, answers, ready, k))
  }

  lemma CollectorTracks<B(!new)>(done: seq<B>, taken: seq<seq<B>>, ids: seq<Id>, n: nat, unmapped: B,
                           id: Option<Id>, answers: seq<Option<B>>, ready: bool)
    requires Collected(done, taken, ids, n, unmapped) && |answers| == |taken|
    requires id.Some? ==> n < |ids| && id.value == ids[n]
    ensures var taken' := AnswersNext(taken, id, answers, ready);
            if Collects(id, answers, ready)
            then Collected(done + [AnswerFor(id.value, answers, unmapped)], taken', ids, n + 1, unmapped)
            else Collected(done, taken', ids, n, unmapped)
  {
    var taken' := AnswersNext(taken, id, answers, ready);
    if Collects(id, answers, ready) {
      assert ids[..n + 1][..n] == ids[..n];
      var done' := done + [AnswerFor(id.value, answers, unmapped)];
      forall i | 0 <= i < n + 1 ensures IsAnswer(done'[i], ids, i, taken', unmapped) {
        assert i < n ==> IsAnswer(done[i], ids, i, taken, unmapped);
      }
    } else {
      forall k | 0 <= k < |taken| ensures taken'[k] == taken[k] {
        assert TakenFrom(id, answers, ready, k) == [];
      }
      assert taken' == taken;
    }
  }

  /** The same with the lane the answers leave through: returned words first, then its content. */
  lemma CollectorLaneTracks<B(!new)>(
    l: Lane<B>, returned: seq<B>, taken: seq<seq<B>>, ids: seq<Id>, n: nat, unmapped: B,
    id: Option<Id>, answers: seq<Option<B>>, ready: bool, pop: bool)
    requires Collected(returned + Contents(l), taken, ids, n, unmapped) && |answers| == |taken|
    requires id.Some? ==> n < |ids| && id.value == ids[n]
    requires pop ==> l.queue != []
    ensures Collected((returned + (if pop then [l.queue[0]] else []))
                      + Contents(LaneNext(l, ready, CollectorLoad(id, answers, unmapped), pop)),
                      AnswersNext(taken, id, answers, ready), ids,
                      if Collects(id, answers, ready) then n + 1 else n, unmapped)
  {
    var load := CollectorLoad(id, answers, unmapped);
    var l', done := LaneNext(l, ready, load, pop), returned + Contents(l);
    var popped, pushed := if pop then [l.queue[0]] else [], if ready then Pending(load) else [];
    CollectorTracks(done, taken, ids, n, unmapped, id, answers, ready);
    LaneConserves(l, ready, load, pop);
    Append(returned, Contents(l), popped, Contents(l'), pushed);
    assert (returned + popped) + Contents(l') == done + pushed;
    assert done + [] == done;
  }

  lemma CollectedGrows<B(!new)>(done: seq<B>, answers: seq<seq<B>>, ids: seq<Id>, n: nat, unmapped: B, moreIds: seq<Id>)
    requires Collected(done, answers, ids, n, unmapped)
    ensures Collected(done, answers, ids + moreIds, n, unmapped)
  {
    assert (ids + moreIds)[..n] == ids[..n];
    forall i | 0 <= i < |done| ensures IsAnswer(done[i], ids + moreIds, i, answers, unmapped) {
      assert IsAnswer(done[i], ids, i, answers, unmapped);
      assert (ids + moreIds)[..i] == ids[..i];
    }
  }

  /** The slaves answer their own requests one by one; good(k, a, b) says that b is a good answer of slave k to a. */
  ghost predicate AnswersInOrder<A(!new), B(!new)>(sent: seq<seq<A>>, taken: seq<seq<B>>, good: (nat, A, B) -> bool) {
    |taken| == |sent| &&
    forall k :: 0 <= k < |sent| ==>
      |taken[k]| <= |sent[k]| && forall j :: 0 <= j < |taken[k]| ==> good(k, sent[k][j], taken[k][j])
  }

  lemma GoodAnswer<P(!new), B(!new)>(
    sent: seq<seq<P>>, regs: seq<Option<P>>, items: seq<P>, ids: seq<Id>, n: nat,
    taken: seq<seq<B>>, good: (nat, P, B) -> bool, i: nat, b: B, unmapped: B)
    requires Routed(sent, regs, items, ids, n) && AnswersInOrder(sent, taken, good)
    requires i < |ids| && ids[i].Some? && IsAnswer(b, ids, i, taken, unmapped)
    ensures i < n && good(ids[i].value, items[i], b)
  {
    var k, p := ids[i].value, Place(ids, i);
    assert good(k, sent[k][p], taken[k][p]);
    ReceivedAtPlace(sent, regs, items, ids, n, i);
  }
}
