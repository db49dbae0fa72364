/** What the core does to the outside world, recorded in order: files written and
    progress callbacks invoked. */
module Effects {

  datatype Event =
    | FileWritten(path: string, content: string)
    | CallbackInvoked

  /** The ordered record of effects; a callback argument of the source is modelled as
      this object, and invoking the callback appends `CallbackInvoked`. */
  class Trace {
    var events: seq<Event>

    constructor ()
      ensures events == []
    {
      events := [];
    }

    method Record(e: Event)
      modifies this
      ensures events == old(events) + [e]
    {
      events := events + [e];
    }
  }

  /** `n` callback invocations in a row. */
  function Callbacks(n: nat): (r: seq<Event>)
    ensures |r| == n
    ensures forall i :: 0 <= i < n ==> r[i] == CallbackInvoked
  {
    if n == 0 then [] else Callbacks(n - 1) + [CallbackInvoked]
  }

  /** Callbacks after callbacks, for a turn that reports at most once. */
  lemma CallbacksMore(m: nat, n: nat)
    requires n <= 1
    ensures Callbacks(m) + Callbacks(n) == Callbacks(m + n)
  {
    if n == 1 {
      assert Callbacks(1) == [CallbackInvoked];
    } else {
      assert Callbacks(m) + [] == Callbacks(m);
    }
  }
}
