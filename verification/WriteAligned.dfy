/** AXI4-Lite write aligner: an address and a data beat pass only together. */
module WriteAligned {
  import opened Streams

  /** Output registers of the write address and the write data channel. */
  datatype Aligner<A, D> = Aligner(aw: Option<A>, w: Option<D>)

  datatype Input<A, D> = Input(address: Option<A>, data: Option<D>, awReady: bool, wReady: bool)

  /** Ready shown upstream on each channel. */
  predicate AddressReady<A, D>(i: Input<A, D>) {
    i.address.None? || (i.data.Some? && i.awReady && i.wReady)
  }

  predicate DataReady<A, D>(i: Input<A, D>) {
    i.data.None? || (i.address.Some? && i.awReady && i.wReady)
  }

  function AlignerNext<A, D>(s: Aligner<A, D>, i: Input<A, D>): Aligner<A, D> {
    Aligner(
      if !i.awReady then s.aw else if i.data.Some? && i.wReady then i.address else None,
      if !i.wReady then s.w else if i.address.Some? && i.awReady then i.data else None)
  }

  function AddressTaken<A, D>(i: Input<A, D>): seq<A> {
    if AddressReady(i) then Pending(i.address) else []
  }

  function DataTaken<A, D>(i: Input<A, D>): seq<D> {
    if DataReady(i) then Pending(i.data) else []
  }

  /** What has crossed each side so far. */
  datatype Tracked<A, D> = Tracked(
    aligner: Aligner<A, D>, addresses: seq<A>, data: seq<D>, emittedAw: seq<A>, emittedW: seq<D>)

  function Run<A, D>(inputs: seq<Input<A, D>>): Tracked<A, D> {
    if inputs == [] then Tracked(Aligner(None, None), [], [], [], []) else
    var t, i := Run(inputs[..|inputs| - 1]), inputs[|inputs| - 1];
    Tracked(
      AlignerNext(t.aligner, i),
      t.addresses + AddressTaken(i),
      t.data + DataTaken(i),
      t.emittedAw + (if i.awReady then Pending(t.aligner.aw) else []),
      t.emittedW + (if i.wReady then Pending(t.aligner.w) else []))
  }

  /** Both upstream handshakes happen at the same clock or not at all, and a channel without an offer is ready. */
  lemma TakenTogether<A, D>(i: Input<A, D>)
    ensures |AddressTaken(i)| == |DataTaken(i)|
    ensures AddressTaken(i) != [] <==> i.address.Some? && i.data.Some? && i.awReady && i.wReady
    ensures AddressReady(i) <==> i.address.None? || AddressTaken(i) != []
    ensures DataReady(i) <==> i.data.None? || DataTaken(i) != []
  {
  }

  lemma {:induction false} RunConserves<A, D>(inputs: seq<Input<A, D>>)
    ensures var t := Run(inputs);
            && |t.addresses| == |t.data|
            && t.emittedAw + Pending(t.aligner.aw) == t.addresses
            && t.emittedW + Pending(t.aligner.w) == t.data
  {
    if inputs != [] {
      var i := inputs[|inputs| - 1];
      RunConserves(inputs[..|inputs| - 1]);
      TakenTogether(i);
    }
  }

  /** Over any run: the k-th address and the k-th data beat emitted were taken at the same clock as
      the k-th of each, and the two emitted counts never differ by more than one. */
  lemma AlignedInOrder<A, D>(inputs: seq<Input<A, D>>)
    ensures var t := Run(inputs);
            && |t.addresses| == |t.data|
            && t.emittedAw <= t.addresses && t.emittedW <= t.data
            && -1 <= |t.emittedAw| - |t.emittedW| <= 1
  {
    RunConserves(inputs);
  }

  class WriteAligner<A, D> {
    var aw: Option<A>
    var w: Option<D>

    function State(): Aligner<A, D>
      reads this
    {
      Aligner(aw, w)
    }

    constructor ()
      ensures State() == Aligner(None, None)
    {
      aw, w := None, None;
    }

    /** One clock edge; the ready signals are those shown upstream before it. */
    method Clock(i: Input<A, D>) returns (addressReady: bool, dataReady: bool)
      modifies this
      ensures State() == AlignerNext(old(State()), i)
      ensures addressReady == AddressReady(i) && dataReady == DataReady(i)
    {
      dataReady := !i.data.Some? || (i.address.Some? && i.awReady && i.wReady);
      addressReady := !i.address.Some? || (i.data.Some? && i.awReady && i.wReady);
      if i.awReady {
        aw := if i.address.Some? && i.data.Some? && i.wReady then i.address else None;
      }
      if i.wReady {
        w := if i.data.Some? && i.address.Some? && i.awReady then i.data else None;
      }
    }
  }
}
