/** The TypeScript client's response body: buffered on arrival, pulled by the consumer, cancelled at will. */
module PulledBodies {
  import opened Common

  datatype Done = Going | Closed | Errored | Cancelled

  /**
   * The receive buffer, and what has happened so far: payloads taken in, payloads handed out,
   * bytes given back to the receive windows, and resets asked for.
   */
  datatype Body = Body(
    queue: seq<bytes>, buffered: int, ended: bool, error: Option<nat>, done: Done,
    arrived: seq<bytes>, delivered: seq<bytes>, consumed: int, resets: nat)

  const NEW_BODY := Body([], 0, false, None, Going, [], [], 0, 0)

  datatype Step = Data(data: bytes, endStream: bool) | End | Fail(error: nat) | Pull | Cancel

  function TakeData(b: Body, data: bytes, endStream: bool): (b': Body) {
    var kept := if data != [] && b.done.Going?
                then b.(queue := b.queue + [data], buffered := b.buffered + |data|, arrived := b.arrived + [data]) else b;
    kept.(ended := b.ended || endStream)
  }

  /** The next chunk, then an error, then the end; nothing if it must wait. */
  function PullOnce(b: Body): (b': Body) {
    if b.queue != [] then
      b.(queue := b.queue[1..], buffered := b.buffered - |b.queue[0]|,
         delivered := b.delivered + [b.queue[0]], consumed := b.consumed + |b.queue[0]|)
    else if b.error.Some? then b.(done := Errored)
    else if b.ended then b.(done := Closed)
    else b
  }

  predicate Alive(b: Body) {
    b.done.Going? && !b.ended && b.error.None?
  }

  function GiveUp(b: Body): (b': Body) {
    b.(done := Cancelled, queue := [], buffered := 0,
       consumed := b.consumed + (if b.buffered > 0 then b.buffered else 0),
       resets := b.resets + if Alive(b) then 1 else 0)
  }

  /** The reader side runs only while the body is readable. */
  predicate Enabled(b: Body, s: Step) {
    s.Pull? || s.Cancel? ==> b.done.Going?
  }

  function Perform(b: Body, s: Step): (b': Body) {
    match s
    case Data(data, endStream) => TakeData(b, data, endStream)
    case End => b.(ended := true)
    case Fail(e) => b.(error := if b.error.None? then Some(e) else b.error)
    case Pull => PullOnce(b)
    case Cancel => GiveUp(b)
  }

  function Run(steps: seq<Step>): (b: Body) {
    if steps == [] then NEW_BODY
    else
      var b, s := Run(steps[..|steps| - 1]), steps[|steps| - 1];
      if Enabled(b, s) then Perform(b, s) else b
  }

  ghost predicate Inv(b: Body) {
    && b.buffered == Total(b.queue) && b.consumed + b.buffered == Total(b.arrived) && b.resets <= 1
    && b.delivered <= b.arrived
    && (if b.done.Cancelled? then b.queue == [] else b.delivered + b.queue == b.arrived && b.resets == 0)
    && (b.done.Closed? ==> b.ended && b.queue == []) && (b.done.Errored? ==> b.error.Some? && b.queue == [])
  }

  lemma DataKeeps(b: Body, data: bytes, endStream: bool)
    requires Inv(b)
    ensures Inv(TakeData(b, data, endStream))
  {
    if data != [] && b.done.Going? {
      assert b.arrived + [data] == b.delivered + (b.queue + [data]);
      TotalOne(data);
      TotalAppend(b.queue, [data]);
      TotalAppend(b.arrived, [data]);
    }
  }

  lemma PullKeeps(b: Body)
    requires Inv(b) && b.done.Going?
    ensures Inv(PullOnce(b))
  {
    if b.queue != [] {
      var first, rest := b.queue[0], b.queue[1..];
      assert b.queue == [first] + rest;
      assert b.delivered + [first] + rest == b.arrived;
      TotalOne(first);
      TotalAppend([first], rest);
    }
  }

  lemma StepKeeps(b: Body, s: Step)
    requires Inv(b) && Enabled(b, s)
    ensures Inv(Perform(b, s))
  {
    hide TakeData, PullOnce;
    match s
    case Data(data, endStream) => DataKeeps(b, data, endStream);
    case Pull => PullKeeps(b);
    case Cancel => assert Total([]) == 0;
    case _ =>
  }

  lemma {:induction false} RunKeeps(steps: seq<Step>)
    ensures Inv(Run(steps))
  {
    hide Inv, Perform, Enabled;
    if steps == [] {
      assert Inv(NEW_BODY) by { Fresh(); }
    } else {
      RunKeeps(steps[..|steps| - 1]);
      var b, s := Run(steps[..|steps| - 1]), steps[|steps| - 1];
      if Enabled(b, s) {
        StepKeeps(b, s);
      }
    }
  }

  lemma Fresh()
    ensures Inv(NEW_BODY)
  {
  }

  /**
   * In every run: what was handed out is a prefix of what arrived; the body closes or errors only
   * with everything handed out, and closes only after END_STREAM; every byte taken in is given
   * back to the windows exactly once, when read or when cancelled; one reset at most is asked for.
   */
  lemma PulledFaithfully(steps: seq<Step>)
    ensures var b := Run(steps);
            && b.delivered <= b.arrived && b.resets <= 1
            && (b.done.Closed? ==> b.ended && b.delivered == b.arrived)
            && (b.done.Errored? ==> b.delivered == b.arrived)
            && b.consumed + Total(b.queue) == Total(b.arrived) && (b.done.Cancelled? ==> b.queue == [])
  {
    hide Run;
    RunKeeps(steps);
    var b := Run(steps);
    if b.done.Closed? || b.done.Errored? {
      assert b.delivered + [] == b.delivered;
    }
  }

  /** END_STREAM has come, with DATA or with trailers. */
  predicate Ends(steps: seq<Step>) {
    steps != [] && (var s := steps[|steps| - 1]; s.End? || (s.Data? && s.endStream) || Ends(steps[..|steps| - 1]))
  }

  /** The first failure, if any. */
  function FirstFailure(steps: seq<Step>): (e: Option<nat>) {
    if steps == [] then None
    else
      var before, s := FirstFailure(steps[..|steps| - 1]), steps[|steps| - 1];
      if before.None? && s.Fail? then Some(s.error) else before
  }

  lemma {:induction false} HistoryKept(steps: seq<Step>)
    ensures Run(steps).ended == Ends(steps) && Run(steps).error == FirstFailure(steps)
  {
    if steps != [] {
      HistoryKept(steps[..|steps| - 1]);
    }
  }

  /**
   * One turn of the consumer after any run: the next payload that arrived; with all of them
   * handed out the first failure; without one the end, if it has come; and otherwise nothing.
   */
  lemma PullsInOrder(steps: seq<Step>)
    requires Run(steps).done.Going?
    ensures var b, b' := Run(steps), Run(steps + [Pull]);
            && b'.arrived == b.arrived && b'.resets == b.resets
            && (if b.delivered != b.arrived
                then b'.done.Going? && |b'.delivered| == |b.delivered| + 1 && b'.delivered <= b.arrived
                else b'.delivered == b.delivered
                     && b'.done == if FirstFailure(steps).Some? then Errored else if Ends(steps) then Closed else Going)
  {
    hide Inv;
    var b := Run(steps);
    RunKeeps(steps);
    HistoryKept(steps);
    assert (steps + [Pull])[..|steps|] == steps;
    Split(b);
    hide Run, Ends, FirstFailure;
    if b.queue != [] {
      assert b.queue == [b.queue[0]] + b.queue[1..];
      assert b.arrived == b.delivered + [b.queue[0]] + b.queue[1..];
    }
  }

  lemma Split(b: Body)
    requires Inv(b) && b.done.Going?
    ensures b.arrived == b.delivered + b.queue && (b.queue == [] <==> b.delivered == b.arrived)
  {
    assert b.queue == [] ==> b.delivered + [] == b.delivered;
  }

  /** Cancelling gives back what is buffered and asks for a reset exactly if neither an end nor a failure has come. */
  lemma CancelsExactly(steps: seq<Step>)
    requires Run(steps).done.Going?
    ensures var b, b' := Run(steps), Run(steps + [Step.Cancel]);
            && b'.done.Cancelled? && b'.queue == [] && b'.delivered == b.delivered && b'.consumed == Total(b.arrived)
            && b.resets == 0 && b'.resets == if Ends(steps) || FirstFailure(steps).Some? then 0 else 1
  {
    RunKeeps(steps);
    HistoryKept(steps);
    assert (steps + [Step.Cancel])[..|steps|] == steps;
  }

  /** Unlike the Rust client, DATA after END_STREAM is still taken in until the consumer has seen the end. */
  lemma LateDataTaken(b: Body, data: bytes, endStream: bool)
    requires data != []
    ensures TakeData(b, data, endStream).queue != b.queue <==> b.done.Going?
  {
    if b.done.Going? {
      assert |TakeData(b, data, endStream).queue| == |b.queue| + 1;
    }
  }

  class H2Stream {
    var recvQueue: seq<bytes>
    var recvBuffered: int
    var recvEnded: bool
    var recvError: Option<nat>
    var bodyDone: bool
    ghost var done: Done
    ghost var arrived: seq<bytes>
    ghost var delivered: seq<bytes>
    ghost var consumed: int
    ghost var resets: nat

    ghost predicate Valid()
      reads this
    {
      bodyDone == !done.Going?
    }

    ghost function View(): (b: Body)
      reads this
    {
      Body(recvQueue, recvBuffered, recvEnded, recvError, done, arrived, delivered, consumed, resets)
    }

    constructor ()
      ensures Valid() && View() == NEW_BODY
    {
      recvQueue, recvBuffered, recvEnded, recvError, bodyDone := [], 0, false, None, false;
      done, arrived, delivered, consumed, resets := Going, [], [], 0, 0;
    }

    method ReceiveData(data: bytes, endStream: bool)
      requires Valid()
      modifies this
      ensures Valid() && View() == TakeData(old(View()), data, endStream)
    {
      if |data| > 0 && !bodyDone {
        recvQueue, recvBuffered, arrived := recvQueue + [data], recvBuffered + |data|, arrived + [data];
      }
      if endStream {
        recvEnded := true;
      }
    }

    method OnConsume(n: int)
      modifies this`consumed
      ensures consumed == old(consumed) + n
    {
      consumed := consumed + n;
    }

    /** One turn of the pull loop; `waits` when there is nothing to hand out yet. */
    method PullBody() returns (chunk: Option<bytes>, waits: bool)
      requires Valid() && !bodyDone
      modifies this
      ensures Valid() && View() == PullOnce(old(View()))
      ensures chunk == if old(recvQueue) != [] then Some(old(recvQueue)[0]) else None
      ensures waits == (old(recvQueue) == [] && old(recvError).None? && !old(recvEnded))
    {
      chunk, waits := None, false;
      if recvQueue != [] {
        chunk := Some(recvQueue[0]);
        recvQueue, recvBuffered := recvQueue[1..], recvBuffered - |chunk.value|;
        delivered := delivered + [chunk.value];
        OnConsume(|chunk.value|);
      } else if recvError.Some? {
        bodyDone, done := true, Errored;
      } else if recvEnded {
        bodyDone, done := true, Closed;
      } else {
        waits := true;
      }
    }

    method CancelBody() returns (reset: bool)
      requires Valid() && !bodyDone
      modifies this
      ensures Valid() && View() == GiveUp(old(View())) && reset == Alive(old(View()))
    {
      reset := !bodyDone && !recvEnded && recvError.None?;
      bodyDone, done := true, Cancelled;
      if recvBuffered > 0 {
        OnConsume(recvBuffered);
      }
      recvQueue, recvBuffered := [], 0;
      resets := resets + if reset then 1 else 0;
    }
  }
}
