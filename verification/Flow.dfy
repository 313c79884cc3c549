/** One direction of one flow-control window, section 6.9 of RFC 7540. */
module Flow {

  /** `wakers` names the uploads parked on the window. The window may be negative. */
  datatype Window = Window(available: int, closed: bool, wakers: set<nat>) {

    predicate Ready() {
      available > 0 || closed
    }

    /** Nobody is left parked on a window that could serve them. */
    predicate Valid() {
      wakers != {} ==> !Ready()
    }

    /** More capacity from a WINDOW_UPDATE, or a SETTINGS change of either sign. */
    function Granted(n: int): (w: Window)
      ensures Valid() ==> w.Valid()
    {
      Window(available + n, closed, wakers - WokenBy(n))
    }

    function WokenBy(n: int): (woken: set<nat>) {
      if available + n > 0 then wakers else {}
    }

    function Consumed(n: nat): (w: Window)
      ensures Valid() ==> w.Valid()
    {
      this.(available := available - n)
    }

    function Shut(): (w: Window)
      ensures w.Valid() && w.Ready()
    {
      Window(available, true, {})
    }

    function Joined(task: nat): (w: Window)
      ensures !Ready() ==> w.Valid()
    {
      this.(wakers := wakers + {task})
    }
  }

  function Fresh(initial: int): (w: Window)
    ensures w.Valid()
  {
    Window(initial, false, {})
  }

  class SendWindow {
    var available: int
    var closed: bool
    var wakers: seq<nat>

    function View(): (w: Window)
      reads this
    {
      Window(available, closed, set t | t in wakers)
    }

    constructor (initial: int)
      ensures View() == Fresh(initial)
    {
      available, closed, wakers := initial, false, [];
    }

    method Update(increment: int) returns (woken: set<nat>)
      modifies this
      ensures View() == old(View()).Granted(increment) && woken == old(View()).WokenBy(increment)
    {
      available := available + increment;
      if available > 0 {
        woken := Wake();
      } else {
        woken := {};
      }
    }

    method Consume(n: nat)
      modifies this`available
      ensures View() == old(View()).Consumed(n)
    {
      available := available - n;
    }

    method RegisterWaker(task: nat)
      modifies this`wakers
      ensures View() == old(View()).Joined(task)
    {
      wakers := wakers + [task];
    }

    method Close() returns (woken: set<nat>)
      modifies this
      ensures View() == old(View()).Shut() && woken == old(View()).wakers
    {
      closed := true;
      woken := Wake();
    }

    method Wake() returns (woken: set<nat>)
      modifies this`wakers
      ensures View().wakers == {} && woken == old(View()).wakers
    {
      woken := {};
      while wakers != []
        invariant woken + View().wakers == old(View()).wakers
        decreases |wakers|
      {
        woken := woken + {wakers[0]};
        wakers := wakers[1..];
      }
    }
  }
}
