/** Shared vocabulary: bytes, optional values, errors and flattening. */
module Common {

  type byte = b: int | 0 <= b < 256
  type bytes = seq<byte>

  datatype Option<+T> = None | Some(value: T)

  /** HTTP/2 error codes, section 7 of RFC 7540. */
  datatype ErrorCode =
    | NoError | ProtocolError | InternalError | FlowControlError | SettingsTimeout
    | StreamClosed | FrameSizeError | RefusedStream | Cancel | CompressionError
    | ConnectError | EnhanceYourCalm | InadequateSecurity | Http11Required
  {
    function Value(): (v: nat)
      ensures v <= 13
    {
      match this
      case NoError => 0
      case ProtocolError => 1
      case InternalError => 2
      case FlowControlError => 3
      case SettingsTimeout => 4
      case StreamClosed => 5
      case FrameSizeError => 6
      case RefusedStream => 7
      case Cancel => 8
      case CompressionError => 9
      case ConnectError => 10
      case EnhanceYourCalm => 11
      case InadequateSecurity => 12
      case Http11Required => 13
    }

    static function FromValue(v: nat): (c: Option<ErrorCode>)
    {
      if v == 0 then Some(NoError)
      else if v == 1 then Some(ProtocolError)
      else if v == 2 then Some(InternalError)
      else if v == 3 then Some(FlowControlError)
      else if v == 4 then Some(SettingsTimeout)
      else if v == 5 then Some(StreamClosed)
      else if v == 6 then Some(FrameSizeError)
      else if v == 7 then Some(RefusedStream)
      else if v == 8 then Some(Cancel)
      else if v == 9 then Some(CompressionError)
      else if v == 10 then Some(ConnectError)
      else if v == 11 then Some(EnhanceYourCalm)
      else if v == 12 then Some(InadequateSecurity)
      else if v == 13 then Some(Http11Required)
      else None
    }
  }

  /** Which of the source's error sites was reached; it stands for the message text. */
  datatype Reason =
    | TruncatedInteger | IntegerOverflow | TruncatedString | StringExceedsBlock
    | InvalidHuffmanCode | EosInHuffman | InvalidHuffmanPadding
    | InvalidIndex | IndexZero | TableUpdateTooLarge
    | TruncatedPayload | MissingPadLength | PadTooLong | BadHeadersPadding | PriorityTruncated
    | BadPrioritySize | BadRstSize | SettingsAckNotEmpty | BadSettingsSize
    | BadPushPadding | PushTruncated | BadPingSize | GoawayTooShort | BadWindowUpdateSize
    | FrameTooLarge
    | ExpectedContinuation | UnexpectedContinuation | HeaderBlockTooLarge | ZeroWindowUpdate
    | InitialWindowTooLarge | MaxFrameSizeOutOfRange
    | StreamReset | PeerReset | PeerGoaway | GoingAway | ClosedByClient | TransportClosed
    | WriteFailed | ConnectionClosed

  datatype H2Error = H2Error(code: ErrorCode, reason: Reason)

  datatype Result<+T> = Ok(value: T) | Err(error: H2Error)

  /** What a parser leaves behind: a value and the input it did not use. */
  datatype Parsed<+T> = Got(value: T, rest: bytes) | Bad(error: H2Error)

  function Flatten<T>(parts: seq<seq<T>>): seq<T> {
    if parts == [] then [] else parts[0] + Flatten(parts[1..])
  }

  lemma {:induction false} FlattenConcat<T>(a: seq<seq<T>>, b: seq<seq<T>>)
    ensures Flatten(a + b) == Flatten(a) + Flatten(b)
  {
    if a == [] {
      assert a + b == b;
    } else {
      assert (a + b)[1..] == a[1..] + b;
      FlattenConcat(a[1..], b);
    }
  }

  lemma FlattenSnoc<T>(a: seq<seq<T>>, x: seq<T>)
    ensures Flatten(a + [x]) == Flatten(a) + x
  {
    FlattenConcat(a, [x]);
    assert Flatten([x]) == x + Flatten([]);
  }

  /** The octets of all the chunks. */
  function Total(chunks: seq<bytes>): (n: nat) {
    if chunks == [] then 0 else |chunks[0]| + Total(chunks[1..])
  }

  lemma {:induction false} TotalAppend(a: seq<bytes>, b: seq<bytes>)
    ensures Total(a + b) == Total(a) + Total(b)
  {
    if a == [] {
      assert a + b == b;
    } else {
      assert (a + b)[1..] == a[1..] + b;
      TotalAppend(a[1..], b);
    }
  }

  lemma TotalOne(chunk: bytes)
    ensures Total([chunk]) == |chunk|
  {
    assert [chunk][1..] == [];
  }

  lemma {:induction false} SubsetSize<T>(a: set<T>, b: set<T>)
    requires a <= b
    ensures |a| <= |b|
  {
    if a != {} {
      var x :| x in a;
      SubsetSize(a - {x}, b - {x});
    }
  }

  function Min(a: int, b: int): (m: int)
    ensures m <= a && m <= b && (m == a || m == b)
  {
    if a <= b then a else b
  }

  function Pow2(n: nat): (p: nat)
    ensures p >= 1
  {
    if n == 0 then 1 else 2 * Pow2(n - 1)
  }

  lemma {:induction false} Pow2Add(a: nat, b: nat)
    ensures Pow2(a + b) == Pow2(a) * Pow2(b)
  {
    if b == 0 {
    } else {
      Pow2Add(a, b - 1);
      assert Pow2(a + b) == 2 * Pow2(a + b - 1);
    }
  }

  lemma MulMono(a: nat, b: nat, p: nat)
    requires a <= b
    ensures a * p <= b * p
  {
  }

  /** `(v >> i) & 1`, as a truth value. */
  function BitAt(v: nat, i: nat): (b: bool) {
    v / Pow2(i) % 2 == 1
  }

  lemma HalfThenDivide(v: nat, p: nat)
    requires p > 0
    ensures v / 2 / p == v / (2 * p)
  {
    var q, r := v / 2 / p, v / 2 % p;
    assert v / 2 == p * q + r;
    var m := 2 * r + v % 2;
    assert v == 2 * (p * q) + m;
    assert 2 * (p * q) == (2 * p) * q;
    DivUnique(v, 2 * p, q, m);
  }

  lemma DivUnique(v: nat, p: nat, q: nat, m: nat)
    requires v == p * q + m && m < p
    ensures v / p == q
  {
    assert v == p * (v / p) + v % p;
    if v / p < q {
      MulMono(v / p + 1, q, p);
    } else if q < v / p {
      MulMono(q + 1, v / p, p);
    }
  }
}
