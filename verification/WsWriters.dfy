/** Writers sharing one WebSocket: each frame is written whole, whoever holds the lock. */
module WsWriters {
  import opened Common
  import opened Bytes
  import opened WsFrames

  /** One call of `Write`, `Ping`, `Pong` or a close, as it reaches the lock. */
  datatype Job = Job(opcode: byte, payload: bytes)

  /** Control payloads over 125 octets are refused before the lock, empty writes are dropped. */
  predicate Writable(j: Job) {
    && j.opcode in [BINARY, CLOSE, PING, PONG]
    && if j.opcode == BINARY then 0 < |j.payload| <= MAX_INT64 else |j.payload| <= 125
  }

  function FrameOf(j: Job): (b: bytes)
    requires Writable(j)
    ensures |b| >= 2
  {
    ServerFrame(j.opcode, j.payload)
  }

  /** The transport's side: what has gone out, the frame being written and what is left of it, and the frames done. */
  datatype Wire = Wire(sent: bytes, current: Option<Job>, rest: bytes, done: seq<Job>)

  const NEW_WIRE := Wire([], None, [], [])

  datatype Step = Lock(job: Job) | Push(k: nat) | Unlock

  predicate Enabled(w: Wire, s: Step) {
    match s
    case Lock(j) => w.current.None? && Writable(j)
    case Push(k) => w.current.Some? && 1 <= k <= |w.rest|
    case Unlock => w.current.Some? && w.rest == []
  }

  /** A write may go out in several pieces, header and payload cut anywhere. */
  function Perform(w: Wire, s: Step): (w': Wire)
    requires Enabled(w, s)
  {
    match s
    case Lock(j) => w.(current := Some(j), rest := FrameOf(j))
    case Push(k) => w.(sent := w.sent + w.rest[..k], rest := w.rest[k..])
    case Unlock => w.(current := None, done := w.done + [w.current.value])
  }

  function Run(steps: seq<Step>): (w: Wire) {
    if steps == [] then NEW_WIRE
    else
      var w, s := Run(steps[..|steps| - 1]), steps[|steps| - 1];
      if Enabled(w, s) then Perform(w, s) else w
  }

  function AllFrames(jobs: seq<Job>): (b: bytes)
    requires forall i :: 0 <= i < |jobs| ==> Writable(jobs[i])
  {
    if jobs == [] then [] else FrameOf(jobs[0]) + AllFrames(jobs[1..])
  }

  lemma {:induction false} AllFramesSnoc(jobs: seq<Job>, j: Job)
    requires Writable(j) && forall i :: 0 <= i < |jobs| ==> Writable(jobs[i])
    ensures AllFrames(jobs + [j]) == AllFrames(jobs) + FrameOf(j)
  {
    hide FrameOf;
    if jobs == [] {
      assert [] + [j] == [j] && [j][1..] == [];
      assert AllFrames([j]) == FrameOf(j) + AllFrames([]);
    } else {
      assert (jobs + [j])[1..] == jobs[1..] + [j];
      AllFramesSnoc(jobs[1..], j);
    }
  }

  ghost predicate Inv(w: Wire) {
    && (forall i :: 0 <= i < |w.done| ==> Writable(w.done[i]))
    && match w.current
       case None => w.rest == [] && w.sent == AllFrames(w.done)
       case Some(j) => Writable(j) && w.sent + w.rest == AllFrames(w.done) + FrameOf(j) && |w.rest| <= |FrameOf(j)|
  }

  lemma StepKeeps(w: Wire, s: Step)
    requires Inv(w) && Enabled(w, s)
    ensures Inv(Perform(w, s))
  {
    hide FrameOf;
    match s
    case Lock(j) =>
    case Push(k) => assert w.sent + w.rest[..k] + w.rest[k..] == w.sent + w.rest;
    case Unlock =>
      AllFramesSnoc(w.done, w.current.value);
      assert w.sent + [] == w.sent;
  }

  lemma {:induction false} RunKeeps(steps: seq<Step>)
    ensures Inv(Run(steps))
  {
    hide Perform, Enabled;
    if steps != [] {
      RunKeeps(steps[..|steps| - 1]);
      var w, s := Run(steps[..|steps| - 1]), steps[|steps| - 1];
      if Enabled(w, s) {
        StepKeeps(w, s);
      }
    }
  }

  // --- what the peer makes of the bytes ---

  /** Whole frames at the front, and what is left over. */
  function ParseAll(input: bytes): (r: (seq<Job>, bytes))
    decreases |input|
  {
    match ParseServerFrame(input)
    case Unparsed => ([], input)
    case Parsed(opcode, payload, rest) =>
      var (jobs, left) := ParseAll(rest);
      ([Job(opcode, payload)] + jobs, left)
  }

  lemma {:induction false} ParsesBack(jobs: seq<Job>, tail: bytes)
    requires forall i :: 0 <= i < |jobs| ==> Writable(jobs[i])
    ensures var (more, left) := ParseAll(tail); ParseAll(AllFrames(jobs) + tail) == (jobs + more, left)
    decreases |jobs|
  {
    hide ServerFrame, ParseServerFrame;
    if jobs == [] {
      assert [] + tail == tail;
      assert [] + ParseAll(tail).0 == ParseAll(tail).0;
    } else {
      var rest := AllFrames(jobs[1..]) + tail;
      assert Writable(jobs[0]);
      assert AllFrames(jobs) + tail == FrameOf(jobs[0]) + rest;
      ServerFrameRoundTrip(jobs[0].opcode, jobs[0].payload, rest);
      ParsesBack(jobs[1..], tail);
      assert [jobs[0]] + (jobs[1..] + ParseAll(tail).0) == jobs + ParseAll(tail).0;
    }
  }

  /** A frame that is not all there does not parse. */
  lemma PartialUnparsed(j: Job, n: nat)
    requires Writable(j) && n < |FrameOf(j)|
    ensures ParseServerFrame(FrameOf(j)[..n]) == Unparsed
  {
    hide U64, GetU64, U16, GetU16;
    var frame, m := FrameOf(j), |j.payload|;
    var input := frame[..n];
    if n >= 2 {
      assert input[1] == frame[1] && input[2..] == frame[2..n];
      var ext := ServerHeader(j.opcode, m)[2..];
      assert frame[2..] == ext + j.payload;
      if m > 125 && n - 2 >= |ext| {
        assert input[2..] == ext + j.payload[..n - 2 - |ext|];
        if m <= 0xffff {
          assert ext == U16(m);
          U16RoundTrip(m, j.payload[..n - 2 - |ext|]);
        } else {
          assert ext == U64(m);
          U64RoundTrip(m, j.payload[..n - 2 - |ext|]);
        }
      }
    }
  }

  /**
   * Under any interleaving of writers and any partial writes, the bytes sent so far parse as
   * exactly the frames written, whole and in the order of the lock, and then at most the
   * beginning of the one being written.
   */
  lemma FramesStayWhole(steps: seq<Step>)
    ensures var w := Run(steps);
            ParseAll(w.sent).0 == if w.current.Some? && w.rest == [] then w.done + [w.current.value] else w.done
    ensures var w := Run(steps); w.current.None? ==> ParseAll(w.sent) == (w.done, [])
  {
    hide Run, ServerFrame, FrameOf, ParseServerFrame;
    RunKeeps(steps);
    var w := Run(steps);
    assert ParseAll([]) == ([], []) by { NothingParses(); }
    if w.current.None? {
      ParsesBack(w.done, []);
      assert AllFrames(w.done) + [] == AllFrames(w.done) && w.done + [] == w.done;
    } else if w.rest == [] {
      var jobs := w.done + [w.current.value];
      AllFramesSnoc(w.done, w.current.value);
      assert w.sent + [] == w.sent;
      ParsesBack(jobs, []);
      assert AllFrames(jobs) + [] == AllFrames(jobs) && jobs + [] == jobs;
    } else {
      var frame := FrameOf(w.current.value);
      var n := |frame| - |w.rest|;
      assert w.sent == AllFrames(w.done) + frame[..n] by { CutPoint(w.sent, w.rest, AllFrames(w.done), frame); }
      PartialUnparsed(w.current.value, n);
      ParsesBack(w.done, frame[..n]);
      assert w.done + [] == w.done;
    }
  }

  lemma NothingParses()
    ensures ParseAll([]) == ([], [])
  {
  }

  lemma CutPoint(a: bytes, rest: bytes, b: bytes, frame: bytes)
    requires a + rest == b + frame && |rest| <= |frame|
    ensures a == b + frame[..|frame| - |rest|]
  {
    assert a == (a + rest)[..|a|] == (b + frame)[..|a|];
  }

  // --- the write path itself ---

  /** The header into a caller's buffer, which must hold ten octets. */
  method EncodeHeader(dst: array<byte>, opcode: byte, n: nat) returns (len: nat)
    requires dst.Length >= 10 && opcode < 16 && n <= MAX_INT64
    modifies dst
    ensures len <= dst.Length && dst[..len] == ServerHeader(opcode, n)
  {
    hide U16, U64;
    dst[0] := 128 + opcode;
    if n <= 125 {
      dst[1] := n;
      len := 2;
    } else if n <= 0xffff {
      dst[1] := 126;
      PutAt(dst, 2, U16(n));
      len := 4;
      assert dst[2..4] == U16(n);
    } else {
      dst[1] := 127;
      PutAt(dst, 2, U64(n));
      len := 10;
      assert dst[2..10] == U64(n);
    }
    assert dst[..len] == [dst[0], dst[1]] + dst[2..len];
  }

  method PutAt(dst: array<byte>, at: nat, b: bytes)
    requires at + |b| <= dst.Length
    modifies dst
    ensures dst[at..at + |b|] == b
    ensures forall i :: 0 <= i < dst.Length && !(at <= i < at + |b|) ==> dst[i] == old(dst[i])
  {
    for i := 0 to |b|
      invariant forall j :: 0 <= j < i ==> dst[at + j] == b[j]
      invariant forall j :: 0 <= j < dst.Length && !(at <= j < at + i) ==> dst[j] == old(dst[j])
    {
      dst[at + i] := b[i];
    }
  }

  class Writer {
    var wire: bytes

    constructor ()
      ensures wire == []
    {
      wire := [];
    }

    /** One binary frame per call; an empty write is a no-op. */
    method Write(p: bytes) returns (n: nat)
      requires |p| <= MAX_INT64
      modifies this
      ensures n == |p|
      ensures wire == old(wire) + if p == [] then [] else FrameOf(Job(BINARY, p))
    {
      if p == [] {
        assert wire + [] == wire;
        return 0;
      }
      var header := new byte[10];
      var len := EncodeHeader(header, BINARY, |p|);
      wire := wire + header[..len] + p;
      assert old(wire) + header[..len] + p == old(wire) + (header[..len] + p);
      return |p|;
    }

    /** Control frames carry at most 125 octets; a longer one is refused and nothing is written. */
    method WriteControl(opcode: byte, payload: bytes) returns (ok: bool)
      requires opcode in [CLOSE, PING, PONG]
      modifies this
      ensures ok == (|payload| <= 125)
      ensures wire == old(wire) + if ok then FrameOf(Job(opcode, payload)) else []
    {
      if |payload| > 125 {
        assert wire + [] == wire;
        return false;
      }
      var frame := [128 + opcode as int, |payload|];
      assert frame + payload == FrameOf(Job(opcode, payload));
      wire := wire + (frame + payload);
      return true;
    }
  }
}
