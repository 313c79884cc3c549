# Verified model of the h2ts client and its tunnel

h2ts carries HTTP/2 frames inside a WebSocket. This project models, in Dafny, the parts that
have to be right byte for byte and step for step, and proves what they are for:

* **HPACK** (RFC 7541): Huffman coding, prefix integers, strings, the static and dynamic tables,
  the decoder and the stateless encoder of the Rust client.
* **HTTP/2 frames** (RFC 7540, section 6): the serializer, the payload parser and the streaming
  decoder of the Rust client.
* **The connection** (RFC 7540, sections 5, 6.5, 6.8, 6.9): streams, flow control in both
  directions, header blocks, uploads, response bodies, request slots, GOAWAY and teardown.
* **The WebSocket** (RFC 6455, section 5) of the Go server: an incremental reader over short
  reads, and writers sharing one lock.
* **The connection pool** of the Rust client, and two pieces of the TypeScript client: the
  doubling byte writer and the pulled response body.

## How it is built

Each component has a specification in functions over values, and the program in the source's
own form, proved to compute it: `HuffmanLoops`, `HpackLoops`, `FrameLoops`, `Flow.SendWindow`,
`ConnStates.ConnState`, `WsConns.Conn`, `WsWriters.Writer`, `Pools.PoolState`,
`GrowingWriters.GrowingWriter` and `PulledBodies.H2Stream` are loops, arrays and objects updated
in place. The properties are then lemmas about the specification.

`Connection` is the state machine: one pure function per critical section of the source (the
code between two awaits), over a value that holds the connection, the cells it shares with the
application, and a trace of all that came in and went out. A run is any sequence of steps of any
of the parties: bytes arriving in any chunks, requests, uploads fed and resumed, bodies read and
dropped, pings, closing, the transport failing. `ConnStates.Play` shows that the object, driven
through any such run, is in exactly the state the machine says.

`Moves` breaks every step into atomic moves and proves once that a predicate kept by the moves
holds in every state of every run. Nine modules use it, each about one thing and each stating
its theorem about the trace alone where it can: `Lifetimes`, `SendAccounting`, `OutboundTrace`,
`ResetDiscipline`, `ResponseBodies`, `ReceiveCredit`, `StrandedBytes`, `Teardown` and `Wakeups`;
`RequestSlots` uses it for single steps. `Replies` says exactly what each frame and each step
makes the connection write. `StepTraces` says what each step adds to the trace, and that an open
connection has heard exactly the frames of all its input; `PaddedData` and `HeaderContext` build
on it. `HeaderTransport` joins HPACK, frames and the connection end to end, and `ResponseStatus`
follows a response from the digits of its status to the request that waits for it.

Where an encoder and a decoder could be wrong together, a third description says what the octets
are, without naming either: `HpackWire` tells header blocks by the order in which fields were
inserted, `FrameWire` and `WsWire` draw frames in bits and big-endian numbers,
`HuffmanLoops.HuffmanOctets` and `HpackInteger.IntegerOctets` place code words and groups of bits.

The Huffman codec is proved for any table that is prefix-free and complete; `Tiling` and
`HuffmanTable` discharge that for the table of the RFC by showing that its 257 words, in code
order and left-aligned to 30 bits, tile the whole range.

## Where the code does not do what one would expect

Each of these is proved, with the exact condition and, where a run is needed to show it, a run.

* A peer's RST_STREAM unmaps a stream without waking parked requests, so a request can sleep
  beside a free slot (`RequestSlots.PeerResetStrands`, `RequestStranded`).
* A refused push writes RST_STREAM for the promised id without unmapping it; if that id is one of
  ours, DATA follows the RST_STREAM. No DATA ever follows any other, and on a stream that writes,
  or may write, a refusal was written exactly if the peer has promised it
  (`ResetDiscipline.NoDataAfterReset`, `LiveNotReset`, `DataAfterReset`).
* RST_STREAM is written for streams that are not mapped, or never were opened: by exactly the zero
  WINDOW_UPDATEs and finished promises that name them, and by a body dropped that was left without
  an end (`ResetDiscipline.ResetsAnswer`, `FrameResets`, `StepResets`, `UnmappedCancel`).
* END_STREAM on an interim (1xx) head closes the far side without ending the body, so a body can
  be left waiting for ever (`ResponseBodies.HangsExactly`, `BodyHangs`).
* DATA after END_STREAM on a stream still mapped is dropped and never credited
  (`ResponseBodies.DiscardsExactly`).
* DATA buffered for a request that fails before its head is freed without being credited: the
  connection window loses those bytes for good, exactly when a stream leaves the map without a
  head and with bytes in its buffer (`StrandedBytes.StrandsExactly`, `ByteStranded`).
* Padding of DATA is stripped and never credited, though the peer is charged for it
  (`PaddedData.PaddingUncredited`, `PaddedExample`).
* Credit for 2^31 bytes or more given back at once is truncated to 31 bits, to an increment of
  zero for 2^31 itself; only a dropped body gives back that much
  (`ReceiveCredit.LostExactly`, `LostCredit.CreditLost`). It takes a peer that overruns the
  stream's window, which the source does not check.
* A push that fails loses the frames already parsed in it (`FrameStream.LostWithTheError`).

## Model

| member | source | states |
|---|---|---|
| Tiling.TilesPrefixFree | rust/crates/h2ts-client/src/hpack/huffman_table.rs:9-267 | a code table whose words, sorted and left-aligned, tile the whole range of the longest word is prefix-free |
| Tiling.TilesComplete | rust/crates/h2ts-client/src/hpack/huffman_table.rs:9-267 | and complete: every bit string that long starts with a code word, so a decoder can always go on |
| HuffmanTable.EachLinked | rust/crates/h2ts-client/src/hpack/huffman_table.rs:9-267 | the 257 words of the table do tile: each ends exactly where the next in code order begins, and words of one length are in the order of their symbols, so the lengths alone determine the code |
| Huffman.HuffmanCodec | rust/crates/h2ts-client/src/hpack/huffman_table.rs:6-267 | hence the concrete table is a prefix-free, complete code whose EOS word is thirty one-bits |
| PrefixCode.BuildTrie | rust/crates/h2ts-client/src/hpack/huffman.rs:55-66 | inserting the words one by one gives a trie in which a path is found exactly if it starts a word |
| PrefixCode.FindBuild | rust/crates/h2ts-client/src/hpack/huffman.rs:55-66 | what each path of that trie leads to, for every table without clashes |
| PrefixCode.WalkEncoded | rust/crates/h2ts-client/src/hpack/huffman.rs:74-120 | walking the trie over any encoded text and at most seven one-bits gives the text back |
| PrefixCode.WalkSound | rust/crates/h2ts-client/src/hpack/huffman.rs:74-120 | whatever the walk accepts is an encoded text followed by at most seven one-bits, and the missing-child branch is never taken |
| Huffman.DecodeEncode | rust/crates/h2ts-client/src/hpack/huffman.rs:19-40 | decode(encode(x)) = x for every byte string and every table that is a codec |
| Huffman.EncodeDecode | rust/crates/h2ts-client/src/hpack/huffman.rs:74-120 | whenever decode(y) succeeds, encode(decode(y)) = y, and decode never reports an unknown code |
| Huffman.HuffmanBijection | rust/crates/h2ts-client/src/hpack/huffman.rs:19-120 | both at once for the table of the RFC: encode is a bijection onto what decode accepts |
| Huffman.EncodedLength | rust/crates/h2ts-client/src/hpack/huffman.rs:11-17 | the predicted length is the number of octets encode writes |
| HuffmanLoops.EncodeHuffman | rust/crates/h2ts-client/src/hpack/huffman.rs:19-40 | the encoder that sets bits in a zeroed buffer writes exactly the packed, one-padded code words |
| HuffmanLoops.DecodeHuffman | rust/crates/h2ts-client/src/hpack/huffman.rs:74-120 | the bit-by-bit decoder over the trie computes the decoding function, errors included |
| HuffmanLoops.HuffmanOctets | rust/crates/h2ts-client/src/hpack/huffman.rs:19-40 | bit by bit: every octet of the text has its code word of the table in its place, right after the words before it, the most significant bit of an octet first |
| HuffmanLoops.HuffmanPadding | rust/crates/h2ts-client/src/hpack/huffman.rs:19-40 | the encoding has as many octets as its words need, and every bit after the last word is one |
| HpackInteger.WriteInteger | rust/crates/h2ts-client/src/hpack/mod.rs:58-71 | the loop writes the prefix integer of section 5.1 of RFC 7541 |
| HpackInteger.ReadInteger | rust/crates/h2ts-client/src/hpack/mod.rs:73-101 | the loop reads one back or fails, and the 64-bit accumulator never overflows |
| HpackInteger.IntegerRoundTrip | rust/crates/h2ts-client/src/hpack/mod.rs:58-101 | a written integer reads back, its own octets consumed, exactly when it is below 2^N - 1 + 2^42; larger ones are rejected |
| HpackInteger.IntegerBounded | rust/crates/h2ts-client/src/hpack/mod.rs:73-101 | no input at all decodes to that bound or above, and at most seven octets are consumed |
| HpackInteger.IntegerOctets | rust/crates/h2ts-client/src/hpack/mod.rs:58-71 | the octets themselves: the value beside the flags if it fits the prefix, else a prefix of ones and then groups of seven bits, the least significant first, every octet but the last marked |
| StaticTable.StaticTablePlain | rust/crates/h2ts-client/src/hpack/static_table.rs:5-69 | no name or value of the static table contains NUL |
| StaticTable.PairKeyUnambiguous | rust/crates/h2ts-client/src/hpack/mod.rs:152-171 | so the NUL-joined key of a static entry equals that of a header only if they are the same field, whatever the header contains |
| StaticTable.BuildMaps | rust/crates/h2ts-client/src/hpack/mod.rs:156-171 | the two maps hold the first index of each name and the last index of each pair |
| DynamicTable.EvictLongest | rust/crates/h2ts-client/src/hpack/mod.rs:221-251 | eviction keeps the longest run of newest entries that fits |
| DynamicTable.InsertLongest | rust/crates/h2ts-client/src/hpack/mod.rs:221-235 | after an insertion the table is the longest fitting run of the new entry and the old ones, empty if the entry alone is too large, and within its limit |
| DynamicTable.ResizeLongest | rust/crates/h2ts-client/src/hpack/mod.rs:237-251 | after a size update it is the longest fitting run of the old table |
| DynamicTable.LongestFitUnique | rust/crates/h2ts-client/src/hpack/mod.rs:221-251 | a longest fitting run is unique, so nothing is left open |
| Hpack.StandardGood | rust/crates/h2ts-client/src/hpack/mod.rs:145-171 | the concrete tables satisfy everything the codec asks of its tables |
| Hpack.StringRoundTrip | rust/crates/h2ts-client/src/hpack/mod.rs:105-141 | a string reads back exactly when its octets fit the integer bound, in the shorter of the two forms |
| Hpack.HeaderRoundTrip | rust/crates/h2ts-client/src/hpack/mod.rs:253-347 | a field reads back with its name in lower case, indexed, with an indexed name, or literal |
| Hpack.HpackRoundTrip | rust/crates/h2ts-client/src/hpack/mod.rs:253-347 | decode(encode(list)) is the list in lower case and leaves any dynamic table as it was, exactly when all strings fit; otherwise it is an integer overflow |
| Hpack.DecodeKeepsValid | rust/crates/h2ts-client/src/hpack/mod.rs:253-311 | every block, well formed or not, leaves the table within its limit and its ceiling |
| HpackLoops.WriteString | rust/crates/h2ts-client/src/hpack/mod.rs:105-115 | the writer appends exactly the encoded string |
| HpackLoops.ReadString | rust/crates/h2ts-client/src/hpack/mod.rs:117-141 | the reader takes exactly one string or fails as specified |
| HpackLoops.Encode | rust/crates/h2ts-client/src/hpack/mod.rs:322-347 | the encoder's loop over the static maps computes the encoding function |
| HpackLoops.HpackDecoder.EntryAt | rust/crates/h2ts-client/src/hpack/mod.rs:207-219 | static entries, then dynamic ones, then an error; never called with index 0. Which dynamic entry an index names is `HpackWire.NewestFirst` |
| HpackLoops.HpackDecoder.Insert | rust/crates/h2ts-client/src/hpack/mod.rs:221-235 | the loop with its running size does the specified insertion without underflow |
| HpackLoops.HpackDecoder.ApplyMaxSize | rust/crates/h2ts-client/src/hpack/mod.rs:237-251 | the loop does the specified resize, or refuses a size above our own limit |
| HpackLoops.HpackDecoder.SetProtocolMaxSize | rust/crates/h2ts-client/src/hpack/mod.rs:199-205 | lowering our own limit shrinks the table to the longest fitting run and cannot fail |
| HpackLoops.HpackDecoder.Decode | rust/crates/h2ts-client/src/hpack/mod.rs:253-311 | decoding a block in place computes the decoding function and leaves the specified table, after errors too |
| HpackWire.BlockMeans | rust/crates/h2ts-client/src/hpack/mod.rs:207-311 | any list of instructions of all forms (indexed, literal with indexing, without, never; names by index or spelled; strings Huffman coded or not; size updates), written in octets, decodes to what it means by a memory that lists the inserted fields in the order they came and forgets the oldest until the rest, at 32 octets more each, fits: the same fields or the same error, and the table left is that memory |
| HpackWire.NewestFirst | rust/crates/h2ts-client/src/hpack/mod.rs:207-235 | after literals with incremental indexing of f0..fn that fit, the index after the static ones plus k is the k-th most recently inserted, as a field or as the name of a literal of any form; past the run it is an error |
| HpackWire.LiteralAlone | rust/crates/h2ts-client/src/hpack/mod.rs:253-311 | a short literal in octets, 0x40, 0x00 or 0x10 in front: it is its name and value, and is inserted exactly if the octet is 0x40 and it fits |
| HpackWire.StaticByNumber | rust/crates/h2ts-client/src/hpack/mod.rs:207-219 | one octet 0x80 + i is the i-th field of the static table |
| HpackWire.FormWritten | rust/crates/h2ts-client/src/hpack/mod.rs:322-347 | a field of the static table is written as its number in one octet; any other is a literal that is not inserted, its first four bits 0001 exactly if the field must never be indexed and 0000 otherwise |
| HpackWire.FieldsArrive | rust/crates/h2ts-client/src/hpack/mod.rs:253-347 | encoded and decoded, fields arrive one for one and in order, the value untouched, capital letters of the name moved by 32 and nothing else |
| Bytes.U24RoundTrip | rust/crates/h2ts-client/src/bytes.rs:49-53 | 24-bit fields read back big-endian |
| Bytes.U32RoundTrip | rust/crates/h2ts-client/src/bytes.rs:55-58 | 32-bit fields read back big-endian |
| Bytes.WrittenDigits | rust/crates/h2ts-client/src/bytes.rs:43-58 | the octets written are the number to the base 256, most significant first |
| Bytes.ByteReader.Take | rust/crates/h2ts-client/src/bytes.rs:128-136 | a slice read gives the next octets or nothing, and moves only if it succeeds |
| Frames.SettingsRoundTrip | rust/crates/h2ts-client/src/frames.rs:120-305 | any set of settings reads back from its wire form |
| Frames.BodyRoundTrip | rust/crates/h2ts-client/src/frames.rs:120-305 | a frame's own flags, id and payload parse back to it exactly when it is well formed: 31-bit ids and increments, weights up to 256, empty acknowledgements |
| FrameStream.FrameRoundTrip | rust/crates/h2ts-client/src/frames.rs:307-616 | within the receiver's limit the decoder gives a serialized frame back, and consumes exactly it, if and only if it is well formed |
| FrameStream.ScanSerialized | rust/crates/h2ts-client/src/frames.rs:307-616 | the frames of a serialized list come back in order, whatever follows |
| FrameStream.ChunkingIndependent | rust/crates/h2ts-client/src/frames.rs:567-616 | pushing the bytes in any chunks gives the frames and leftover of one push, or the same error |
| FrameStream.LeftoverIncomplete | rust/crates/h2ts-client/src/frames.rs:567-616 | what is left is one incomplete frame, shorter than nine octets and a maximal payload |
| FrameStream.LostWithTheError | rust/crates/h2ts-client/src/frames.rs:567-606 | when a push fails, exactly the frames of the earlier pushes have been handed out: those sharing the failing push are lost |
| FrameStream.UnknownSkipped | rust/crates/h2ts-client/src/frames.rs:342-352 | a frame of unknown type between frames changes nothing |
| FrameStream.UnknownFrame | rust/crates/h2ts-client/src/frames.rs:342-352 | every type above 9 is such a frame, whatever its flags and payload |
| FrameStream.PaddingTransparent | rust/crates/h2ts-client/src/frames.rs:322-544 | any legal padding of DATA, HEADERS or PUSH_PROMISE leaves the parse as it was |
| FrameWire.ParsesAsDrawn | rust/crates/h2ts-client/src/frames.rs:322-544 | for every type, flags, stream and payload, the parser reads what section 6 of RFC 7540 draws, said in bits and big-endian numbers: padding stripped, the last value of each setting 1 to 6 and no other setting, 31-bit numbers; or it fails with the standard's code |
| FrameWire.NextAsDrawn | rust/crates/h2ts-client/src/frames.rs:567-616 | and so for the front of every buffer: a 24-bit length checked against the limit, type, flags, and a stream id whose top bit is ignored |
| FrameWire.WrittenAsDrawn | rust/crates/h2ts-client/src/frames.rs:120-316 | every well-formed frame is written as it is drawn, its flags exactly those it needs, unpadded |
| FrameWire.SettingsWritten | rust/crates/h2ts-client/src/frames.rs:120-305 | of a set of settings, exactly those present are written |
| FrameWire.ErrorNumbers | rust/crates/h2ts-client/src/errors.rs:6-53 | the fourteen error codes have the numbers of section 7, and no other number has one |
| FrameLoops.SerializeFrame | rust/crates/h2ts-client/src/frames.rs:120-316 | the serializer writes the specified octets |
| FrameLoops.ReadPaddedData | rust/crates/h2ts-client/src/frames.rs:322-340 | padding is stripped without reading past the payload |
| FrameLoops.ParseFrame | rust/crates/h2ts-client/src/frames.rs:342-544 | the payload parser computes the parsing function and never reads out of bounds |
| FrameLoops.FrameDecoder.Push | rust/crates/h2ts-client/src/frames.rs:567-616 | one push of the streaming decoder yields what scanning the buffered and new bytes yields, and keeps the leftover; an error leaves it empty |
| Flow.Window.Granted | rust/crates/h2ts-client/src/flow.rs:33-46 | more capacity, of either sign, never leaves anyone parked on a window that could serve them |
| Flow.SendWindow.Update | rust/crates/h2ts-client/src/flow.rs:33-46 | capacity is added and the parked tasks are woken exactly when it becomes positive |
| Flow.SendWindow.Close | rust/crates/h2ts-client/src/flow.rs:68-71 | closing wakes everyone |
| Flow.SendWindow.Wake | rust/crates/h2ts-client/src/flow.rs:73-77 | waking drains the list |
| SendAccounting.RunKeeps | rust/crates/h2ts-client/src/connection.rs:540-1232 | in every state of every run the windows agree with a ledger kept from the trace alone |
| SendAccounting.SettingsKeep | rust/crates/h2ts-client/src/connection.rs:772-801 | a changed initial window moves every stream window retroactively, below zero if need be, and never the connection window |
| SendAccounting.LedgerIsSums | rust/crates/h2ts-client/src/connection.rs:660-676 | the ledger is what it should be: sums of credits and of DATA bytes over the trace |
| SendAccounting.SendWindows | rust/crates/h2ts-client/src/connection.rs:660-676 | the connection window is 65535 plus credits minus all DATA and never negative; each live stream's is the peer's current initial window plus its credits minus its DATA |
| SendAccounting.DataWithinWindows | rust/crates/h2ts-client/src/connection.rs:1203-1230 | every non-empty DATA frame ever written was within both windows and the peer's frame size at that moment |
| SendAccounting.SettingsAreThePeers | rust/crates/h2ts-client/src/connection.rs:438-460 | while open, each of the five settings of the peer is the value of the last SETTINGS without ACK that carried one, and the standard's initial value before any |
| OutboundTrace.RunAccepted | rust/crates/h2ts-client/src/connection.rs:810-1232 | an observer that sees only the trace accepts everything every run writes |
| OutboundTrace.HeadersKeep | rust/crates/h2ts-client/src/connection.rs:810-840 | a header block goes out as one HEADERS frame and contiguous CONTINUATION frames that add up to it |
| OutboundTrace.UploadFaithful | rust/crates/h2ts-client/src/connection.rs:1135-1232 | DATA of a stream is a prefix of its body; END_STREAM goes out only with all of it |
| OutboundTrace.NothingAfterTheEnd | rust/crates/h2ts-client/src/connection.rs:911-941 | no DATA follows END_STREAM, nothing at all follows a GOAWAY, so at most one is written |
| OutboundTrace.BlockFaithful | rust/crates/h2ts-client/src/connection.rs:810-840 | the fragments of a stream add up to the block it was opened with |
| OutboundTrace.OutboundLegal | rust/crates/h2ts-client/src/connection.rs:810-1232 | all of it for every run: streams 1, 3, 5 and so on, their blocks, their bodies, their ends |
| ResetDiscipline.NoDataAfterReset | rust/crates/h2ts-client/src/connection.rs:842-855 | wherever DATA is written, no RST_STREAM but REFUSED_STREAM was written on that stream since it was opened, and a REFUSED_STREAM was if and only if the peer has promised the stream |
| ResetDiscipline.LiveNotReset | rust/crates/h2ts-client/src/connection.rs:842-855 | the same of every mapped stream of an open connection |
| ResetDiscipline.ResetsAnswer | rust/crates/h2ts-client/src/connection.rs:660-855 | in every run, each RST_STREAM is the immediate answer to a zero WINDOW_UPDATE, a promise or a dropped body, with the code for it; a stream never opened is never cancelled |
| ResetDiscipline.FrameResets | rust/crates/h2ts-client/src/connection.rs:540-717 | a frame makes an open connection write exactly the RST_STREAMs of a zero WINDOW_UPDATE or a completed promise, whether the stream is mapped, gone or never was |
| ResetDiscipline.StepResets | rust/crates/h2ts-client/src/connection.rs:177-200 | no step without inbound bytes writes RST_STREAM but dropping a body before its end, and that does for its own stream, mapped or not |
| ResetDiscipline.UnmappedCancel | rust/crates/h2ts-client/src/connection.rs:177-200 | a body whose stream is unmapped cancels it exactly if it was left without an end |
| ResetDiscipline.WhoResets | rust/crates/h2ts-client/src/connection.rs:757-855 | of the two places that write RST_STREAM, one always unmaps the stream it names and the other never does |
| ResetDiscipline.ZeroUpdateResets | rust/crates/h2ts-client/src/connection.rs:660-670 | a zero WINDOW_UPDATE is answered by RST_STREAM whether or not the stream exists |
| ResetDiscipline.DataAfterReset | rust/crates/h2ts-client/src/connection.rs:757-767 | the exception is real: a run that writes DATA on stream 1 after RST_STREAM for it |
| Lifetimes.MappedExactly | rust/crates/h2ts-client/src/connection.rs:540-868 | in every state of every run, by the trace alone: a stream is mapped if and only if it was opened, END_STREAM has not gone both ways, and no RST_STREAM of either side (a refusal excepted), GOAWAY below it or teardown has cut it off |
| Lifetimes.ToldExactly | rust/crates/h2ts-client/src/connection.rs:355-433 | in every run: a request is answered if and only if a final head came while its stream was mapped, with the first such; the last block after it is the trailers; interim heads tell it nothing; without a head it waits while mapped, fails with the error that cut it off, or is abandoned; the body holds that error until it has yielded it |
| Lifetimes.PromisesExactly | rust/crates/h2ts-client/src/connection.rs:757-767 | what a GOAWAY of ours names is the highest stream the peer has promised, in every run |
| Replies.FrameReplies | rust/crates/h2ts-client/src/connection.rs:540-717 | what any frame makes an open connection write, exactly: a GOAWAY with the code of its fault, or a SETTINGS acknowledgement, the octets of a PING back, RST_STREAM with 1 or 7, credit for DATA of no mapped stream, or nothing; and the connection closes exactly for a fault or a GOAWAY with an error, with that code |
| Replies.StepWrites | rust/crates/h2ts-client/src/connection.rs:874-1163 | what every step of our own but an upload's turn writes, exactly: the split header block, the empty END_STREAM, credit for the stream while it is mapped and for the connection, RST_STREAM with 8, PING with the next number, GOAWAY |
| Replies.TurnWrites | rust/crates/h2ts-client/src/connection.rs:1203-1230 | a turn of an upload writes one DATA frame exactly if both windows are positive, and as much of the chunk as the windows and the peer's frame limit allow |
| Replies.TurnMoves | rust/crates/h2ts-client/src/connection.rs:1169-1230 | and it moves the upload past what was written, parks it if a window is exhausted, and ends it if the stream is gone or the connection closed |
| Replies.StepCloses | rust/crates/h2ts-client/src/connection.rs:920-941 | of our own steps exactly the loss of the transport and the close end the connection, with code 2 for a failed write and 0 otherwise |
| Replies.GarbledReplies | rust/crates/h2ts-client/src/connection.rs:524-538 | bytes that are no frames are answered with a GOAWAY of the decoder's code, which closes the connection |
| Replies.FirstFrames | rust/crates/h2ts-client/src/connection.rs:1290-1358 | the first frames of every connection are SETTINGS with what was configured, and the growth of its window beyond 65535 if any |
| HeaderContext.ContextExactly | rust/crates/h2ts-client/src/connection.rs:560-602 | in every run, the dynamic table is what all whole header blocks received leave when decoded one after the other from the empty table of the advertised size, pushes included; and the block in progress is the fragments since |
| HeaderContext.BlockFrames | rust/crates/h2ts-client/src/connection.rs:733-770 | a fragment is only kept; the last one puts the whole block through the table once, and what it decodes to is delivered, or the promise refused |
| HeaderContext.OwnStepsKeep | rust/crates/h2ts-client/src/connection.rs:973-1232 | no step of our own touches the table, the block in progress or the peer's settings |
| ResponseStatus.StatusValue | rust/crates/h2ts-client/src/connection.rs:294-310 | a `:status` is the sum of its digits by their places if it is a number of sixteen bits, with at most one plus sign before it, and 0 otherwise |
| ResponseStatus.StatusByDigits | rust/crates/h2ts-client/src/connection.rs:294-310 | the status of a list is 100 a + 10 b + c for the three digits of its last `:status`, and it is interim exactly if a is one |
| ResponseStatus.NoStatus | rust/crates/h2ts-client/src/connection.rs:294-310 | without a `:status` it is 0, and final |
| ResponseStatus.AnsweredByDigits | rust/crates/h2ts-client/src/connection.rs:355-375 | over every run, the request whose first final head has these digits is answered with that status and those fields, and one without a final head is not answered |
| ResponseBodies.BodiesHonest | rust/crates/h2ts-client/src/connection.rs:157-174 | chunks are a prefix of the DATA payloads in order; one error at most and no chunk after it; an end without an error only with everything up to END_STREAM |
| ResponseBodies.NothingWithheld | rust/crates/h2ts-client/src/connection.rs:355-433 | what arrived on a live stream was yielded or is queued; a reader that waits has nothing to read |
| ResponseBodies.DiscardsExactly | rust/crates/h2ts-client/src/connection.rs:377-389 | DATA is thrown away exactly when it follows END_STREAM on a stream still mapped |
| ResponseBodies.HangsExactly | rust/crates/h2ts-client/src/connection.rs:355-389 | a finished upload retires its stream exactly if END_STREAM was seen, and leaves the body without an end exactly if it was seen on an interim head only |
| ResponseBodies.BodyHangs | rust/crates/h2ts-client/src/connection.rs:355-375 | such a run: the body waits for ever, closing the connection included |
| ReceiveCredit.CreditConserved | rust/crates/h2ts-client/src/connection.rs:157-200 | while open, DATA bytes received are the credit returned beyond the initial growth, plus the bytes still readable, plus those stranded in requests that failed before their head, plus bytes after END_STREAM, plus what truncation lost |
| ReceiveCredit.NeverOvercredited | rust/crates/h2ts-client/src/connection.rs:874-889 | no stream is credited beyond what arrived on it and was given up |
| ReceiveCredit.ConnectionNeverOvercredited | rust/crates/h2ts-client/src/connection.rs:874-889 | nor is the connection, in any run, closed or not, beyond what arrived in all and its initial growth, less what is stranded |
| ReceiveCredit.LostExactly | rust/crates/h2ts-client/src/connection.rs:874-889 | in every run, credit is lost if and only if a dropped body gave back 2^31 bytes or more at once; any other return is below 2^24 |
| LostCredit.CreditLost | rust/crates/h2ts-client/src/connection.rs:177-200 | such a run: 256 frames of 2^23 bytes, never read, and the body dropped |
| StrandedBytes.StrandsExactly | rust/crates/h2ts-client/src/connection.rs:1053-1075 | between any two states of a run, a stream gets stranded bytes if and only if it leaves the map without a head and with bytes buffered, and what is stranded never becomes less |
| StrandedBytes.DoomStrands | rust/crates/h2ts-client/src/connection.rs:401-424 | failing streams strands exactly the buffers of those without a head |
| StrandedBytes.RetireStrands | rust/crates/h2ts-client/src/connection.rs:859-868 | so does retiring one |
| StrandedBytes.ByteStranded | rust/crates/h2ts-client/src/connection.rs:652-659 | such a run: a byte of DATA before any head, and the peer resets the stream |
| StepTraces.AllHeard | rust/crates/h2ts-client/src/connection.rs:524-538 | while open, the frames handled are exactly those of all the bytes that came in, in order and each once |
| PaddedData.FrameCharge | rust/crates/h2ts-client/src/frames.rs:322-340 | of a DATA frame as received, the flow-controlled length is the data that is parsed plus the pad length octet plus the padding |
| PaddedData.PaddingUncredited | rust/crates/h2ts-client/src/frames.rs:322-340 | over every run, what the peer was charged is what was given back, is readable, stranded, discarded or lost, plus the padding, which is never given back and is nothing exactly if no padded DATA came in |
| PaddedData.PaddedExample | rust/crates/h2ts-client/src/frames.rs:322-340 | a frame that is charged four octets of which three are padding |
| ReceiveCredit.ReplenishBooks | rust/crates/h2ts-client/src/connection.rs:874-889 | one return of n bytes credits and loses n together |
| ReceiveCredit.DropKeeps | rust/crates/h2ts-client/src/connection.rs:177-200 | dropping a body keeps the balance, with the reset that may follow |
| Teardown.Settled | rust/crates/h2ts-client/src/connection.rs:859-941 | the streams opened are the odd numbers below the next; no mapped stream is closed both ways; a request waits for its head exactly while its stream is mapped without one, a ping exactly while registered; closed means no streams, pings or parked requests |
| Teardown.NothingTakenBack | rust/crates/h2ts-client/src/connection.rs:911-941 | heads and pings settle once; after a peer's GOAWAY no stream is opened; after the close nothing is opened or written |
| Teardown.GoawayFails | rust/crates/h2ts-client/src/connection.rs:690-713 | in every run, GOAWAY(n, code) closes an open connection if and only if the code is not 0: then with that code every waiting head and ping fails, no stream is left, nothing stays parked, nothing is written; with code 0 exactly the mapped streams above n fail and the others stay as they were |
| Teardown.DestroyFails | rust/crates/h2ts-client/src/connection.rs:920-941 | any teardown fails every waiting head and ping with its error, ends every mapped body, leaves what was settled, and writes nothing |
| Teardown.PingFates | rust/crates/h2ts-client/src/connection.rs:1080-1103 | in every run, a ping waits exactly while registered under its own octets; it fails only with the error that closed the connection, and is overwritten only once 2^32 more have been started |
| Teardown.PingStarts | rust/crates/h2ts-client/src/connection.rs:1080-1103 | starting a ping sends the octets of the next number and registers it in place of a waiting one with the same octets |
| Teardown.PingAcked | rust/crates/h2ts-client/src/connection.rs:682-689 | an acknowledgement settles exactly the waiting ping that has its octets |
| Teardown.PingOctets | rust/crates/h2ts-client/src/connection.rs:1085-1090 | those octets are four zeros and the count of pings in four octets, most significant first |
| Teardown.RetireKeeps | rust/crates/h2ts-client/src/connection.rs:859-868 | retirement restores the rule that END_STREAM or the end of an upload may have broken |
| Teardown.PingKeyInjective | rust/crates/h2ts-client/src/connection.rs:1088-1090 | two pings share a key only if the 32-bit counter has come round |
| RequestSlots.OnlyPeerResetsStrand | rust/crates/h2ts-client/src/connection.rs:803-806 | every step that takes in no RST_STREAM of the peer's keeps: a request is parked only while no slot is free |
| RequestSlots.PeerResetStrands | rust/crates/h2ts-client/src/connection.rs:652-659 | a peer's RST_STREAM breaks it exactly when it names a mapped stream, someone is parked, and the open streams are exactly at the limit |
| RequestSlots.RequestStranded | rust/crates/h2ts-client/src/connection.rs:652-659 | such a run: a request sleeps while the connection is idle |
| RequestSlots.OpenedWithinLimit | rust/crates/h2ts-client/src/connection.rs:980-1047 | in every run, each stream was opened by a request step, with the encoding of its headers, at which the open odd streams were fewer than the last SETTINGS_MAX_CONCURRENT_STREAMS in the trace, 2^32 - 1 before any, and are one more after |
| RequestSlots.RequestByTheLimit | rust/crates/h2ts-client/src/connection.rs:895-1047 | in every run, a request is refused by a closed connection or after GOAWAY, admitted exactly while the open odd streams are below that last limit, and parked otherwise |
| RequestSlots.RequestAdmits | rust/crates/h2ts-client/src/connection.rs:980-1047 | a request is refused, parked, or given the next stream with the open ones still within the limit |
| Wakeups.NoLostWakeup | rust/crates/h2ts-client/src/connection.rs:1169-1200 | an upload is parked only while the connection is open and one of its two windows has no capacity |
| Wakeups.WindowsStayOpen | rust/crates/h2ts-client/src/connection.rs:400-401 | windows are closed only by teardown, when nothing is mapped any more |
| Moves.RunByMoves | rust/crates/h2ts-client/src/connection.rs:524-1232 | what holds at the start and is kept by the atomic moves holds after any steps of any party |
| Moves.CrashShape | rust/crates/h2ts-client/src/connection.rs:524-538 | a frame that fails has changed next to nothing before the connection error |
| Moves.TurnShape | rust/crates/h2ts-client/src/connection.rs:1203-1230 | a turn of an upload writes nothing or one non-empty DATA frame on a live stream |
| ConnStates.ConnState.constructor | rust/crates/h2ts-client/src/connection.rs:1290-1358 | a new connection has written its SETTINGS and the growth of its window |
| ConnStates.ConnState.OnBytes | rust/crates/h2ts-client/src/connection.rs:524-538 | frames are dispatched up to the first that fails, which closes the connection |
| ConnStates.ConnState.Dispatch | rust/crates/h2ts-client/src/connection.rs:540-717 | one frame, every branch and every error |
| ConnStates.ConnState.CompleteHeaderBlock | rust/crates/h2ts-client/src/connection.rs:733-770 | a whole block is decoded and delivered, or a push refused |
| ConnStates.ConnState.ApplyRemoteSettings | rust/crates/h2ts-client/src/connection.rs:772-801 | settings are applied in order, what precedes a bad one included |
| ConnStates.AdjustWindows | rust/crates/h2ts-client/src/connection.rs:783-785 | the loop over the streams moves every window once and collects who it wakes |
| ConnStates.ConnState.SendHeaders | rust/crates/h2ts-client/src/connection.rs:810-840 | the splitting loop writes exactly the specified fragments |
| ConnStates.ConnState.ResetStream | rust/crates/h2ts-client/src/connection.rs:842-853 | RST_STREAM, the stream failed and unmapped, parked requests woken |
| ConnStates.ConnState.RetireIfFullyClosed | rust/crates/h2ts-client/src/connection.rs:859-868 | a stream goes only when both directions have ended |
| ConnStates.ConnState.ReplenishRecvWindow | rust/crates/h2ts-client/src/connection.rs:874-889 | stream credit only while mapped, connection credit always, nothing once closed |
| ConnStates.ConnState.ActiveStreams | rust/crates/h2ts-client/src/connection.rs:895-897 | the count of odd mapped ids |
| ConnStates.ConnState.ConnectionError | rust/crates/h2ts-client/src/connection.rs:911-918 | a GOAWAY, then teardown |
| ConnStates.ConnState.Destroy | rust/crates/h2ts-client/src/connection.rs:920-941 | everything pending is failed once; a second call does nothing |
| ConnStates.FailPings | rust/crates/h2ts-client/src/connection.rs:934-936 | every ping in flight, and no other, gets the error |
| ConnStates.ConnState.Request | rust/crates/h2ts-client/src/connection.rs:980-1051 | one turn of the request loop |
| ConnStates.ConnState.PumpChunk | rust/crates/h2ts-client/src/connection.rs:1169-1232 | a chunk is sent by turns until it is out, the stream is gone or the windows are empty; the loop cannot spin |
| ConnStates.ConnState.FinishBody | rust/crates/h2ts-client/src/connection.rs:1149-1163 | END_STREAM only on a live stream, retired if the peer has finished too |
| ConnStates.ConnState.PollNext | rust/crates/h2ts-client/src/connection.rs:157-174 | queue, then error, then end, then wait |
| ConnStates.ConnState.DropBody | rust/crates/h2ts-client/src/connection.rs:177-200 | buffered bytes go back, an unfinished stream is cancelled |
| ConnStates.ConnState.StartPing | rust/crates/h2ts-client/src/connection.rs:1080-1103 | a counter that wraps; a key still in flight loses its first waiter |
| ConnStates.ConnState.Close | rust/crates/h2ts-client/src/connection.rs:1114-1128 | GOAWAY once, then teardown |
| ConnStates.Play | rust/crates/h2ts-client/src/connection.rs:486-1232 | the object, driven through any steps, is in the state of the machine all the above is proved about |
| HeaderTransport.ChunksAgree | rust/crates/h2ts-client/src/connection.rs:524-538 | however the bytes are cut, the connection ends in the same state |
| HeaderTransport.Reassembled | rust/crates/h2ts-client/src/connection.rs:560-602 | a block split anywhere completes as the whole would, or exceeds 1 MiB as the whole would |
| Hpack.ShortBlockFits | rust/crates/h2ts-client/src/hpack/mod.rs:322-347 | a block below the integer bound, so any block of at most 1 MiB, has only strings that fit it |
| HeaderTransport.HeadersArriveWhole | rust/crates/h2ts-client/src/connection.rs:560-602 | encode, split, serialize, cut anywhere, decode, reassemble, decode: the request is informed of the same list in lower case (answered, given trailers, or told nothing by an interim head) and the table is the same if the block is at most 1 MiB, else the connection closes saying that it is too large |
| ResponseStatus.ResponseArrives | rust/crates/h2ts-client/src/connection.rs:560-602 | from end to end, a waiting request is answered with the status that the three digits spell and the fields in lower case, however the block was split and cut; an interim head leaves it waiting |
| WsFrames.MaskTwice | go/server/conn.go:264-269 | masking twice with one key is the identity, at any position |
| WsFrames.XorBitwise | go/server/conn.go:264-269 | each bit of the exclusive or is set if and only if exactly one of the two bits is |
| WsFrames.MaskOctets | go/server/conn.go:264-269 | masking: octet i is, bit by bit, the exclusive or of the data octet and key octet (position + i) mod 4 |
| WsWire.ReadsMasked | go/server/conn.go:115-269 | a data frame in raw octets, any length form: the application gets each masked octet with its key octet taken off, bit by bit, and nothing else happens |
| WsWire.AnswersPing | go/server/conn.go:158-175 | 0x89 is answered with 0x8a, the length and the unmasked octets; 0x8a passes |
| WsWire.AnswersClose | go/server/conn.go:176-182 | 0x88: the code is the first two unmasked octets, 1005 without them, the rest is the text; the answer is 0x88 0x02 and the two octets, or 0x88 0x00 if the code is below 1000 or 1005, 1006 or 1015 |
| WsWire.EchoOctets | go/server/conn.go:358-370 | the close frames the server writes, in octets |
| WsWire.ServerOctets | go/server/conn.go:325-340 | the octets of a server frame in all three length forms |
| WsFrames.ServerFrameRoundTrip | go/server/conn.go:325-340 | a server frame parses back as one unmasked final frame, in all three length forms |
| WsStream.ReadsFrames | go/server/conn.go:115-186 | for any masked frames, data in any fragments with pings and pongs between and in any length form, the data payloads come out in order and each ping is answered with its payload |
| WsStream.ReadsClose | go/server/conn.go:176-182 | a close ends the stream cleanly; its code is recorded and echoed |
| WsStream.ReadsViolation | go/server/conn.go:143-243 | each of the six violations a header can show ends it with 1002 and a 1002 close, in the source's order, and a header that shows none is of a known frame; no input ends it with 1006 |
| WsStream.ReadsAnything | go/server/conn.go:143-291 | every input, in one way only, is well-formed frames and then an end: the frames are read and answered, and then comes the peer's close, echoed, or one violation, its 1002 close the last frame written, or the end of the input, with 1006 |
| WsStream.FinalMeaning | go/server/conn.go:143-243 | what is read and written at that end, frames cut off at any place included |
| WsStream.TakeData | go/server/conn.go:130-141 | reading part of a frame hands out that part, unmasked, and goes on from there |
| WsConns.Source.Fill | go/server/conn.go:194-196 | a full read over any short reads gets all it wants, or a clean or a broken end |
| WsConns.Conn.TakeHeader | go/server/conn.go:192-243 | header fields, key and violations as specified, in the source's order |
| WsConns.Conn.NextDataFrame | go/server/conn.go:143-186 | control frames are dealt with until a data frame or the end; it terminates |
| WsConns.Conn.Read | go/server/conn.go:115-138 | whatever the buffer and the short reads, what is handed out and written is the front of what was still to come, or it is the end with its reason, the first one winning |
| WsConns.Conn.Drain | go/server/conn.go:115-138 | reading on in buffers of any sizes yields everything there was |
| WsConns.UnmaskIn | go/server/conn.go:264-269 | unmasking in place from any position of the key, stated bit by bit, the rest of the buffer untouched |
| WsConns.Conn.SetReason | go/server/conn.go:399-408 | the first reason wins |
| WsWriters.FramesStayWhole | go/server/conn.go:295-356 | under any interleaving of writers and any partial writes the bytes parse as exactly the frames written, whole and in the order of the lock |
| WsWriters.PartialUnparsed | go/server/conn.go:295-356 | a frame that is not all there does not parse |
| WsWriters.EncodeHeader | go/server/conn.go:325-340 | the header built in place in the caller's buffer |
| WsWriters.Writer.Write | go/server/conn.go:295-309 | one binary frame per non-empty write |
| WsWriters.Writer.WriteControl | go/server/conn.go:344-356 | at most 125 octets, else refused with nothing written |
| Pools.PoolCap | rust/crates/h2ts-client/src/pool.rs:92-154 | at most one factory call in flight, made by one request; never more than max(1, max) connections, the one being opened included; waiting only while one is opened |
| Pools.RequestsRouted | rust/crates/h2ts-client/src/pool.rs:92-154 | at every step of every run where a request looks for a connection: the closed are let go, and it goes to the oldest live one with a free slot; if none has one, to the oldest live one at the cap, and below it one is opened, or waited for; one that comes back from an open takes the newest if that is live and full; a failed open fails its opener, every open wakes all its waiters, nobody else is touched |
| Pools.IssuedOnce | rust/crates/h2ts-client/src/pool.rs:94-123 | a request given a connection is never given another |
| Pools.PoolState.Request | rust/crates/h2ts-client/src/pool.rs:92-123 | closed connections dropped, a free one taken, or the first at the cap, or one opened |
| Pools.PoolState.Land | rust/crates/h2ts-client/src/pool.rs:144-153 | the open ends, everyone waiting wakes, a full newcomer takes the request all the same |
| GrowingWriters.GrowingWriter.Ensure | typescript/client/src/bytes.ts:46-56 | room is made without changing what was written, never beyond twice what is needed, and to the capacity the doubling loop ends with |
| GrowingWriters.GrowingWriter.Append | typescript/client/src/bytes.ts:87-92 | writing into the doubling buffer refines appending to a sequence |
| GrowingWriters.GrowingWriter.U24 | typescript/client/src/bytes.ts:71-78 | three octets, big-endian, cut to 24 bits |
| GrowingWriters.DoublingNeedsCapacity | typescript/client/src/bytes.ts:46-51 | the doubling loop ends exactly from a positive capacity, which every caller passes, or if nothing is needed |
| PulledBodies.PulledFaithfully | typescript/client/src/stream.ts:137-202 | chunks handed out are a prefix of those taken in; close and error only when all were; every byte given back once, read or cancelled; one reset at most |
| PulledBodies.PullsInOrder | typescript/client/src/stream.ts:179-202 | after any run, one pull hands out the next payload that arrived; with all handed out, the first failure; then the end if it has come; otherwise it waits |
| PulledBodies.CancelsExactly | typescript/client/src/stream.ts:204-223 | after any run, cancelling gives everything buffered back and asks for a reset exactly if neither an end nor a failure has come |
| PulledBodies.LateDataTaken | typescript/client/src/stream.ts:137-142 | unlike the Rust client, DATA after END_STREAM is taken in until the consumer has seen the end |
| PulledBodies.H2Stream.PullBody | typescript/client/src/stream.ts:179-202 | one turn of the pull loop: queue, then error, then end, then wait |
| PulledBodies.H2Stream.CancelBody | typescript/client/src/stream.ts:211-223 | what is buffered goes back, and only a live stream is reset |

## Left out

* Text: strings are their octets. Lossy UTF-8 decoding is the identity, and the wording of errors
  is a `Reason` naming the place that raised them.
* Machine integers of the connection: stream ids and windows are unbounded, since the code does
  not check them near 2^31. The width of prefix integers, frame fields, WINDOW_UPDATE increments,
  the ping counter and WebSocket lengths is modelled.
* Streams, receive buffers and uploads of the connection are values in maps of the object, and
  the channels to the application are the phases of a cell: a buffer shared by reference between a
  stream and a body is one cell under the stream's id. Wakers are sets of task names.
* The trie of the Huffman decoder is a value rebuilt by insertion, not linked boxes.
* Joining repeated header fields into one map entry, request header normalisation, and the
  round-trip time of a ping.
* Writing to the transport: frames are queued in order; the preface, which is a constant before
  them, is not part of the trace.
* PRIORITY has no effect in the source and none here.
* A request future dropped while it waits is one that never goes on, and what arrives for it counts
  as readable; in the pool requests are not cancelled.
* The pool's connections are names with a status that may be anything at every step.
* A transport error while the WebSocket writes or reads, and closing it from this side.
* Pings, pongs and keepalive of the WebSocket as the application sees them; timeouts.
* The connection of the TypeScript client: its request loop does not recheck closed and GOAWAY
  once a slot is free, and it accepts pushes; what is proved here about parking and teardown is
  about the Rust client. Its frame and HPACK codecs are ports of the ones modelled.
* The handshake, subprotocols, idle reaping, the proxy, the WebAssembly glue and the Rust server,
  whose WebSocket framing is in a C library that is not part of this model.
* Flow.Window.Granted: speaks of one window; that an upload parked on two of them is woken is
  `Wakeups.NoLostWakeup`.
* Pools.IssuedOnce: does not say that the connection serves the request, which is the connection's
  affair.
