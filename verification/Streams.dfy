/** Vocabulary shared by the clocked components. */
module Streams {

  datatype Option<+T> = None | Some(value: T)

  /** The word a register holds, if its valid flag is set. */
  function Word<T>(valid: bool, data: T): (s: seq<T>)
  {
    if valid then [data] else []
  }

  function Bit(b: bool): nat {
    if b then 1 else 0
  }

  /** The content of an optional register as a list. */
  function Pending<T>(o: Option<T>): (s: seq<T>)
  {
    if o.Some? then [o.value] else []
  }

  lemma Regroup<T>(a: seq<T>, b: seq<T>, c: seq<T>)
    ensures (a + b) + c == a + (b + c)
    ensures b == [] ==> a + b == a
  {
  }

  /** Two buffers in a row conserve words if each does and the first feeds the second. */
  lemma InSeries<T>(delivered: seq<T>, last: seq<T>, last': seq<T>, moved: seq<T>,
                    first: seq<T>, first': seq<T>, accepted: seq<T>)
    requires delivered + last' == last + moved
    requires moved + first' == first + accepted
    ensures delivered + (last' + first') == (last + first) + accepted
  {
    assert delivered + (last' + first') == (delivered + last') + first';
    assert (last + moved) + first' == last + (moved + first');
    assert last + (first + accepted) == (last + first) + accepted;
  }

  /** One more conserving step after a run that conserved. */
  lemma Append<T>(delivered: seq<T>, held: seq<T>, leaves: seq<T>, held': seq<T>, enters: seq<T>)
    requires leaves + held' == held + enters
    ensures (delivered + leaves) + held' == (delivered + held) + enters
  {
    assert (delivered + leaves) + held' == delivered + (leaves + held');
    assert delivered + (held + enters) == (delivered + held) + enters;
  }

  /** One conserving step before a run that conserves. */
  lemma Prepend<T>(leaves: seq<T>, held': seq<T>, held: seq<T>, enters: seq<T>,
                   delivered: seq<T>, final: seq<T>, accepted: seq<T>)
    requires leaves + held' == held + enters
    requires delivered + final == held' + accepted
    ensures (leaves + delivered) + final == held + (enters + accepted)
  {
    assert (leaves + delivered) + final == leaves + (delivered + final);
    assert leaves + (held' + accepted) == (leaves + held') + accepted;
    assert (held + enters) + accepted == held + (enters + accepted);
  }

  /** A chain of registers, each loading its predecessor: the loop runs from the far end. */
  method ShiftIn<T>(a: array<T>, x: T)
    requires a.Length > 0
    modifies a
    ensures a[..] == [x] + old(a[..a.Length - 1])
  {
    for k := a.Length - 1 downto 0
      invariant forall j :: 0 <= j <= k ==> a[j] == old(a[j])
      invariant forall j :: k < j < a.Length ==> a[j] == old(a[j - 1])
    {
      a[k + 1] := a[k];
    }
    a[0] := x;
  }
}
