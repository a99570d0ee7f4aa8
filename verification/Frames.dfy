/** The byte streams: the shell's frame codec on both sides (internal/firecracker/shell.go,
    guest-agent/main.go), the handshake in front of it (internal/firecracker/vsock.go), the pumps
    that use it (internal/api/shell.go), and the Docker demultiplexer
    (internal/sandbox/stream.go). */
module Frames {
  import opened Bytes
  import opened Options

  const FRAME_DATA: Byte := 0x01
  const FRAME_RESIZE: Byte := 0x02

  datatype Frame = Frame(typ: Byte, payload: seq<Byte>)

  /** How a stream ends for its reader: io.EOF or io.ErrUnexpectedEOF. */
  datatype End = EndOfStream | Truncated

  datatype Read = Got(frame: Frame, rest: seq<Byte>) | Ended(end: End)

  // ---- The shell codec ----

  function Encode(f: Frame): seq<Byte>
  {
    [f.typ] + U32(|f.payload|) + f.payload
  }

  /** io.ReadFull reports a clean end of stream when there is nothing at all to read, so a stream
      cut right behind a header looks like one that ended. */
  function ReadFrame(s: seq<Byte>): Read
  {
    if s == [] then Ended(EndOfStream)
    else if |s| < 5 then Ended(Truncated)
    else
      var length := FromU32(s[1..5]);
      if length == 0 then Got(Frame(s[0], []), s[5..])
      else if |s| == 5 then Ended(EndOfStream)
      else if |s| < 5 + length then Ended(Truncated)
      else Got(Frame(s[0], s[5..5 + length]), s[5 + length..])
  }

  function EncodeAll(fs: seq<Frame>): seq<Byte>
  {
    if fs == [] then [] else Encode(fs[0]) + EncodeAll(fs[1..])
  }

  function ReadAll(s: seq<Byte>): (seq<Frame>, End)
    decreases |s|
  {
    match ReadFrame(s)
    case Ended(end) => ([], end)
    case Got(f, rest) => var (fs, end) := ReadAll(rest); ([f] + fs, end)
  }

  predicate Sendable(f: Frame) { |f.payload| < UINT32 }

  lemma ReadEncoded(f: Frame, rest: seq<Byte>)
    requires Sendable(f)
    ensures ReadFrame(Encode(f) + rest) == Got(f, rest)
    ensures ReadFrame([f.typ] + U32(|f.payload|) + f.payload + rest) == Got(f, rest)
  {
    var s := Encode(f) + rest;
    hide U32, FromU32;
    U32RoundTrip(|f.payload|);
    assert s[1..5] == U32(|f.payload|);
    assert s[5..5 + |f.payload|] == f.payload;
    assert s[5 + |f.payload|..] == rest;
  }

  /** A frame cut short, and how the cut looks. */
  lemma ReadCut(f: Frame, n: nat)
    requires Sendable(f) && n < |Encode(f)|
    ensures ReadFrame(Encode(f)[..n]) == Ended(if n == 0 || n == 5 then EndOfStream else Truncated)
  {
    hide U32, FromU32;
    var s := Encode(f)[..n];
    U32RoundTrip(|f.payload|);
    if n >= 5 { assert s[1..5] == Encode(f)[1..5] == U32(|f.payload|); }
  }

  /** What the reader gets when only the first `n` bytes arrive: the frames wholly contained. */
  function Whole(fs: seq<Frame>, n: nat): seq<Frame>
  {
    if fs == [] || n < |Encode(fs[0])| then [] else [fs[0]] + Whole(fs[1..], n - |Encode(fs[0])|)
  }

  /** Bytes received beyond the frames wholly contained. */
  function Leftover(fs: seq<Frame>, n: nat): nat
  {
    if fs == [] || n < |Encode(fs[0])| then n else Leftover(fs[1..], n - |Encode(fs[0])|)
  }

  /** Reading any prefix of an encoded list of frames returns exactly the frames it contains, then
      an end: a clean one at a frame boundary - and behind a bare header. */
  lemma {:induction false} ReadPrefix(fs: seq<Frame>, n: nat)
    requires forall f :: f in fs ==> Sendable(f)
    requires n <= |EncodeAll(fs)|
    ensures ReadAll(EncodeAll(fs)[..n]) ==
            (Whole(fs, n), if Leftover(fs, n) == 0 || Leftover(fs, n) == 5 then EndOfStream else Truncated)
    decreases |fs|
  {
    if fs != [] {
      var head, rest := Encode(fs[0]), fs[1..];
      if n < |head| {
        assert EncodeAll(fs)[..n] == head[..n];
        ReadCut(fs[0], n);
      } else {
        assert EncodeAll(fs)[..n] == head + EncodeAll(rest)[..n - |head|];
        ReadEncoded(fs[0], EncodeAll(rest)[..n - |head|]);
        ReadPrefix(rest, n - |head|);
      }
    }
  }

  lemma {:induction false} WholeOfAll(fs: seq<Frame>)
    ensures Whole(fs, |EncodeAll(fs)|) == fs && Leftover(fs, |EncodeAll(fs)|) == 0
  {
    if fs != [] {
      assert |EncodeAll(fs)| - |Encode(fs[0])| == |EncodeAll(fs[1..])|;
      WholeOfAll(fs[1..]);
    }
  }

  /** Round trip: what was written is read back, then a clean end. */
  lemma FramesRoundTrip(fs: seq<Frame>)
    requires forall f :: f in fs ==> Sendable(f)
    ensures ReadAll(EncodeAll(fs)) == (fs, EndOfStream)
  {
    assert EncodeAll(fs)[..|EncodeAll(fs)|] == EncodeAll(fs);
    ReadPrefix(fs, |EncodeAll(fs)|);
    WholeOfAll(fs);
  }

  /** It holds exactly of payloads that fit the length field. */
  lemma FramesRoundTripIff(fs: seq<Frame>)
    ensures ReadAll(EncodeAll(fs)) == (fs, EndOfStream) <==> forall f :: f in fs ==> Sendable(f)
  {
    if forall f :: f in fs ==> Sendable(f) {
      FramesRoundTrip(fs);
    } else {
      ReadIsPrefix(EncodeAll(fs));
    }
  }

  /** Nothing is invented: the frames read from any bytes re-encode to a prefix of them, which
      falls short only by an unfinished frame. */
  lemma {:induction false} ReadIsPrefix(s: seq<Byte>)
    ensures var (fs, end) := ReadAll(s);
            && (forall f :: f in fs ==> Sendable(f))
            && EncodeAll(fs) <= s
            && ReadFrame(s[|EncodeAll(fs)|..]) == Ended(end)
    decreases |s|
  {
    match ReadFrame(s)
    case Ended(_) =>
      assert s[0..] == s;
    case Got(f, rest) =>
      FromU32Injective(s[1..5]);
      assert s == Encode(f) + rest;
      ReadIsPrefix(rest);
      var (fs, _) := ReadAll(rest);
      assert ([f] + fs)[1..] == fs;
      assert s[|Encode(f) + EncodeAll(fs)|..] == rest[|EncodeAll(fs)|..];
  }

  // ---- The host side of a session ----

  function Prefix(xs: seq<Byte>, n: nat): (p: seq<Byte>)
    ensures p <= xs && |p| <= n && (|p| == n || p == xs)
  {
    if |xs| <= n then xs else xs[..n]
  }

  /** Everything a loop over FirecrackerShell.Read with a buffer of `size` bytes delivers: frames
      of other types are skipped, payloads longer than the buffer are cut. */
  function Delivered(fs: seq<Frame>, size: nat): seq<Byte>
  {
    if fs == [] then []
    else (if fs[0].typ == FRAME_DATA then Prefix(fs[0].payload, size) else []) + Delivered(fs[1..], size)
  }

  function DataOf(fs: seq<Frame>): seq<Byte>
  {
    if fs == [] then []
    else (if fs[0].typ == FRAME_DATA then fs[0].payload else []) + DataOf(fs[1..])
  }

  predicate FitsBuffer(fs: seq<Frame>, size: nat)
  {
    forall f :: f in fs && f.typ == FRAME_DATA ==> |f.payload| <= size
  }

  lemma {:induction false} DeliveredLength(fs: seq<Frame>, size: nat)
    ensures |Delivered(fs, size)| <= |DataOf(fs)|
    ensures FitsBuffer(fs, size) ==> Delivered(fs, size) == DataOf(fs)
    ensures !FitsBuffer(fs, size) ==> |Delivered(fs, size)| < |DataOf(fs)|
  {
    if fs != [] {
      DeliveredLength(fs[1..], size);
      assert fs == [fs[0]] + fs[1..];
    }
  }

  /** The truncating copy loses nothing exactly when every data frame fits the buffer. */
  lemma LosslessIff(fs: seq<Frame>, size: nat)
    ensures Delivered(fs, size) == DataOf(fs) <==> FitsBuffer(fs, size)
  {
    DeliveredLength(fs, size);
  }

  // ---- Guest to host ----

  const SESSION_BUFFER := 32 * 1034

  function Concat(chunks: seq<seq<Byte>>): seq<Byte>
  {
    if chunks == [] then [] else chunks[0] + Concat(chunks[1..])
  }

  /** The frames the guest writes for the successive reads of its terminal; an empty read writes
      nothing. */
  function PtyFrames(chunks: seq<seq<Byte>>): seq<Frame>
  {
    if chunks == [] then []
    else (if chunks[0] == [] then [] else [Frame(FRAME_DATA, chunks[0])]) + PtyFrames(chunks[1..])
  }

  lemma {:induction false} PtyFramesCarry(chunks: seq<seq<Byte>>)
    ensures DataOf(PtyFrames(chunks)) == Concat(chunks)
    ensures forall f :: f in PtyFrames(chunks) ==> f.typ == FRAME_DATA && f.payload in chunks
  {
    if chunks != [] {
      PtyFramesCarry(chunks[1..]);
      var rest := PtyFrames(chunks[1..]);
      if chunks[0] == [] {
        assert PtyFrames(chunks) == rest;
      } else {
        assert PtyFrames(chunks)[1..] == rest;
      }
    }
  }

  /** Terminal output is transparent: however the guest's terminal reads are split, the session
      delivers exactly the terminal's output, and a prefix of it when the connection is cut. */
  lemma OutputTransparent(chunks: seq<seq<Byte>>, n: nat)
    requires forall c :: c in chunks ==> |c| <= 4096
    requires n <= |EncodeAll(PtyFrames(chunks))|
    ensures var wire := EncodeAll(PtyFrames(chunks));
            && Delivered(ReadAll(wire).0, 32 * 1034) == Concat(chunks)
            && Delivered(ReadAll(wire[..n]).0, 32 * 1034) <= Concat(chunks)
  {
    var fs := PtyFrames(chunks);
    PtyFramesCarry(chunks);
    FramesRoundTrip(fs);
    LosslessIff(fs, SESSION_BUFFER);
    ReadPrefix(fs, n);
    WholeIsPrefix(fs, n);
    DeliveredOfPrefix(Whole(fs, n), fs, SESSION_BUFFER);
  }

  lemma {:induction false} WholeIsPrefix(fs: seq<Frame>, n: nat)
    ensures Whole(fs, n) <= fs
  {
    if fs != [] && n >= |Encode(fs[0])| { WholeIsPrefix(fs[1..], n - |Encode(fs[0])|); }
  }

  lemma {:induction false} DeliveredOfPrefix(xs: seq<Frame>, ys: seq<Frame>, size: nat)
    requires xs <= ys
    ensures Delivered(xs, size) <= Delivered(ys, size)
  {
    if xs != [] {
      assert xs[1..] <= ys[1..];
      DeliveredOfPrefix(xs[1..], ys[1..], size);
    }
  }

  // ---- Host to guest ----

  datatype Window = Window(cols: nat, rows: nat)

  /** What the host side does with a shell. */
  datatype Input = Write(data: seq<Byte>) | Resize(cols: nat, rows: nat)

  predicate Allowed(i: Input)
  {
    match i
    case Write(data) => |data| < UINT32
    case Resize(cols, rows) => cols < UINT16 && rows < UINT16
  }

  function InputFrame(i: Input): Frame
    requires Allowed(i)
  {
    match i
    case Write(data) => Frame(FRAME_DATA, data)
    case Resize(cols, rows) => Frame(FRAME_RESIZE, U16(cols) + U16(rows))
  }

  function InputFrames(inputs: seq<Input>): (fs: seq<Frame>)
    requires forall i :: i in inputs ==> Allowed(i)
    ensures |fs| == |inputs| && forall k :: 0 <= k < |fs| ==> fs[k] == InputFrame(inputs[k])
  {
    if inputs == [] then [] else [InputFrame(inputs[0])] + InputFrames(inputs[1..])
  }

  /** The guest's terminal: the bytes written to it and its window size. */
  datatype Pty = Pty(input: seq<Byte>, size: Option<Window>)

  function Consume(p: Pty, f: Frame): Pty
  {
    if f.typ == FRAME_DATA then p.(input := p.input + f.payload)
    else if f.typ == FRAME_RESIZE && |f.payload| == 4 then
      p.(size := Some(Window(FromU16(f.payload[..2]), FromU16(f.payload[2..]))))
    else p
  }

  function ConsumeAll(p: Pty, fs: seq<Frame>): Pty
    decreases |fs|
  {
    if fs == [] then p else ConsumeAll(Consume(p, fs[0]), fs[1..])
  }

  function Typed(inputs: seq<Input>): seq<Byte>
  {
    if inputs == [] then [] else (if inputs[0].Write? then inputs[0].data else []) + Typed(inputs[1..])
  }

  /** The size of the last resize, if there is one. */
  function LastSize(inputs: seq<Input>, size: Option<Window>): Option<Window>
  {
    if inputs == [] then size
    else if inputs[|inputs| - 1].Resize? then Some(Window(inputs[|inputs| - 1].cols, inputs[|inputs| - 1].rows))
    else LastSize(inputs[..|inputs| - 1], size)
  }

  lemma {:induction false} LastSizeStep(inputs: seq<Input>, size: Option<Window>)
    requires inputs != []
    ensures LastSize(inputs, size) ==
            LastSize(inputs[1..], if inputs[0].Resize? then Some(Window(inputs[0].cols, inputs[0].rows)) else size)
    decreases |inputs|
  {
    if |inputs| > 1 && !inputs[|inputs| - 1].Resize? {
      var front := inputs[..|inputs| - 1];
      LastSizeStep(front, size);
      assert front[1..] == inputs[1..][..|inputs[1..]| - 1];
    }
  }

  lemma ConsumeInput(p: Pty, i: Input)
    requires Allowed(i)
    ensures Consume(p, InputFrame(i)) ==
            match i
            case Write(data) => p.(input := p.input + data)
            case Resize(cols, rows) => p.(size := Some(Window(cols, rows)))
  {
    if i.Resize? {
      U16RoundTrip(i.cols);
      U16RoundTrip(i.rows);
      var payload := InputFrame(i).payload;
      assert payload[..2] == U16(i.cols) && payload[2..] == U16(i.rows);
      hide U16, FromU16;
    }
  }

  lemma InputFramesStep(inputs: seq<Input>)
    requires forall i :: i in inputs ==> Allowed(i)
    requires inputs != []
    ensures InputFrames(inputs) == [InputFrame(inputs[0])] + InputFrames(inputs[1..])
    ensures InputFrames(inputs)[0] == InputFrame(inputs[0]) && InputFrames(inputs)[1..] == InputFrames(inputs[1..])
  {
    hide InputFrame;
  }

  lemma TypedStep(p: Pty, inputs: seq<Input>)
    requires inputs != [] && Allowed(inputs[0])
    ensures var q := Consume(p, InputFrame(inputs[0]));
            && q.input + Typed(inputs[1..]) == p.input + Typed(inputs)
            && q.size == if inputs[0].Resize? then Some(Window(inputs[0].cols, inputs[0].rows)) else p.size
  {
    hide Consume, InputFrame, U16, FromU16, LastSize, ConsumeAll;
    var first, rest := inputs[0], inputs[1..];
    assert Typed(inputs) == (if first.Write? then first.data else []) + Typed(rest);
    hide Typed;
    ConsumeInput(p, first);
    if first.Write? {
      assert p.input + (first.data + Typed(rest)) == p.input + first.data + Typed(rest);
    } else {
      assert [] + Typed(rest) == Typed(rest);
    }
  }

  lemma {:induction false} InputConsumed(p: Pty, inputs: seq<Input>)
    requires forall i :: i in inputs ==> Allowed(i)
    ensures ConsumeAll(p, InputFrames(inputs)) == Pty(p.input + Typed(inputs), LastSize(inputs, p.size))
    decreases |inputs|
  {
    if inputs == [] {
      assert p.input + [] == p.input;
    } else {
      var first, rest := inputs[0], inputs[1..];
      var q := Consume(p, InputFrame(first));
      InputFramesStep(inputs);
      InputConsumed(q, rest);
      LastSizeStep(inputs, p.size);
      TypedStep(p, inputs);
      hide Consume, InputFrame, InputFrames, LastSize, Typed;
    }
  }

  lemma {:induction false} InputFramesOf(inputs: seq<Input>, k: nat)
    requires forall i :: i in inputs ==> Allowed(i)
    requires k <= |inputs|
    ensures InputFrames(inputs)[..k] == InputFrames(inputs[..k])
    ensures forall f :: f in InputFrames(inputs) ==> Sendable(f)
    decreases |inputs|
  {
    forall f | f in InputFrames(inputs) ensures Sendable(f) {
      var j :| 0 <= j < |inputs| && InputFrames(inputs)[j] == f;
      assert inputs[j] in inputs && f == InputFrame(inputs[j]);
    }
    if inputs != [] {
      InputFramesOf(inputs[1..], if k == 0 then 0 else k - 1);
      if k > 0 { assert inputs[..k][1..] == inputs[1..][..k - 1]; }
    }
  }

  /** Input is transparent: what the host writes and the resizes reach the guest's terminal in
      order, and its final size is the last resize; when only `n` bytes arrive, the same holds of
      the first inputs - those wholly contained. */
  lemma InputTransparent(p: Pty, inputs: seq<Input>, n: nat)
    requires forall i :: i in inputs ==> Allowed(i)
    requires n <= |EncodeAll(InputFrames(inputs))|
    ensures var wire := EncodeAll(InputFrames(inputs));
            var k := |Whole(InputFrames(inputs), n)|;
            && k <= |inputs|
            && ConsumeAll(p, ReadAll(wire).0) == Pty(p.input + Typed(inputs), LastSize(inputs, p.size))
            && ConsumeAll(p, ReadAll(wire[..n]).0) == Pty(p.input + Typed(inputs[..k]), LastSize(inputs[..k], p.size))
  {
    var fs := InputFrames(inputs);
    var k := |Whole(fs, n)|;
    WholeIsPrefix(fs, n);
    InputFramesOf(inputs, k);
    FramesRoundTrip(fs);
    ReadPrefix(fs, n);
    InputConsumed(p, inputs);
    InputConsumed(p, inputs[..k]);
    assert Whole(fs, n) == fs[..k];
  }

  /** The frames the guest acts on: data, and resizes of exactly four bytes. */
  function Understood(fs: seq<Frame>): seq<Frame>
  {
    if fs == [] then []
    else (if fs[0].typ == 1 || (fs[0].typ == 2 && |fs[0].payload| == 4) then [fs[0]] else []) + Understood(fs[1..])
  }

  /** Every other frame is ignored: without it the guest's terminal gets the same. */
  lemma {:induction false} OtherFramesIgnored(p: Pty, fs: seq<Frame>)
    ensures ConsumeAll(p, fs) == ConsumeAll(p, Understood(fs))
    decreases |fs|
  {
    if fs != [] {
      var rest := Understood(fs[1..]);
      OtherFramesIgnored(Consume(p, fs[0]), fs[1..]);
      if Understood(fs) == rest {
        OtherFramesIgnored(p, fs[1..]);
      } else {
        assert Understood(fs)[1..] == rest;
      }
    }
  }

  // ---- The Docker demultiplexer ----

  /** A frame of the exec stream: the type byte, three bytes nobody reads, the payload. */
  datatype Packet = Packet(stream: Byte, pad: seq<Byte>, payload: seq<Byte>)

  predicate WellFormed(p: Packet) { |p.pad| == 3 && |p.payload| < UINT32 }

  function EncodePacket(p: Packet): seq<Byte>
  {
    [p.stream] + p.pad + U32(|p.payload|) + p.payload
  }

  function EncodePackets(ps: seq<Packet>): seq<Byte>
  {
    if ps == [] then [] else EncodePacket(ps[0]) + EncodePackets(ps[1..])
  }

  function OfStream(ps: seq<Packet>, stream: Byte): seq<Byte>
  {
    if ps == [] then []
    else (if ps[0].stream == stream then ps[0].payload else []) + OfStream(ps[1..], stream)
  }

  /** The packets of a byte string that is a whole number of them. */
  function Packets(s: seq<Byte>): Option<seq<Packet>>
    decreases |s|
  {
    if s == [] then Some([])
    else if |s| < 8 || |s| < 8 + FromU32(s[4..8]) then None
    else
      var end := 8 + FromU32(s[4..8]);
      match Packets(s[end..])
      case None => None
      case Some(ps) => Some([Packet(s[0], s[1..4], s[8..end])] + ps)
  }

  lemma {:induction false} PacketsRoundTrip(ps: seq<Packet>)
    requires forall p :: p in ps ==> WellFormed(p)
    ensures Packets(EncodePackets(ps)) == Some(ps)
  {
    if ps != [] {
      assert WellFormed(ps[0]);
      PacketsRoundTrip(ps[1..]);
      FirstPacket(ps[0], EncodePackets(ps[1..]));
      assert ps == [ps[0]] + ps[1..];
      hide EncodePacket, WellFormed;
    }
  }

  /** Parsing takes the first packet off. */
  lemma FirstPacket(p: Packet, rest: seq<Byte>)
    requires WellFormed(p)
    ensures Packets([p.stream] + p.pad + U32(|p.payload|) + p.payload + rest) == Packets(EncodePacket(p) + rest)
    ensures Packets(EncodePacket(p) + rest) ==
            match Packets(rest)
            case None => None
            case Some(ps) => Some([p] + ps)
  {
    var s := EncodePacket(p) + rest;
    assert EncodePacket(p) == [p.stream] + p.pad + U32(|p.payload|) + p.payload;
    hide EncodePacket, U32, FromU32;
    PacketLayout(p, rest);
    U32RoundTrip(|p.payload|);
    assert FromU32(s[4..8]) == |p.payload|;
    assert Packet(s[0], s[1..4], s[8..8 + |p.payload|]) == p;
  }

  /** What the demultiplexer's two reads see at the head of a stream. */
  lemma SplitPacket(s: seq<Byte>, header: seq<Byte>, payload: seq<Byte>, rest: seq<Byte>)
    requires s == header + (payload + rest) && |header| == 8 && FromU32(header[4..8]) == |payload|
    ensures Packets(s) == match Packets(rest)
                          case None => None
                          case Some(ps) => Some([Packet(header[0], header[1..4], payload)] + ps)
  {
    var p := Packet(header[0], header[1..4], payload);
    FromU32Injective(header[4..8]);
    assert header == [p.stream] + p.pad + header[4..8];
    assert s == EncodePacket(p) + rest;
    FirstPacket(p, rest);
  }

  lemma CutPacket(s: seq<Byte>, header: seq<Byte>, rest: seq<Byte>)
    requires s == header + rest && |header| == 8 && |rest| < FromU32(header[4..8])
    ensures Packets(s) == None
  {
    assert s[4..8] == header[4..8];
  }

  lemma PacketLayout(p: Packet, rest: seq<Byte>)
    requires |p.pad| == 3
    ensures var s, end := EncodePacket(p) + rest, 8 + |p.payload|;
            && |s| == end + |rest| && s[0] == p.stream && s[1..4] == p.pad && s[4..8] == U32(|p.payload|)
            && s[8..end] == p.payload && s[end..] == rest && s[..end] == EncodePacket(p)
  {
    var head := [p.stream] + p.pad;
    assert head[1..4] == p.pad;
    var s := EncodePacket(p) + rest;
    assert s[..4] == head;
    assert s[1..4] == s[..4][1..4];
  }

  lemma PacketFromBytes(s: seq<Byte>, end: nat)
    requires 8 <= end <= |s| && end == 8 + FromU32(s[4..8])
    ensures EncodePacket(Packet(s[0], s[1..4], s[8..end])) == s[..end]
  {
    hide FromU32, U32;
    FromU32Injective(s[4..8]);
    assert s[..end] == [s[0]] + s[1..4] + s[4..8] + s[8..end];
  }

  lemma {:induction false} PacketsAreAll(s: seq<Byte>)
    requires Packets(s).Some?
    ensures EncodePackets(Packets(s).value) == s
    ensures forall p :: p in Packets(s).value ==> WellFormed(p)
    decreases |s|
  {
    hide EncodePacket, FromU32, U32;
    if s != [] {
      var end := 8 + FromU32(s[4..8]);
      PacketsAreAll(s[end..]);
      PacketFromBytes(s, end);
      var p, ps := Packet(s[0], s[1..4], s[8..end]), Packets(s[end..]).value;
      assert Packets(s).value == [p] + ps && WellFormed(p);
      JoinPackets(p, ps);
      hide EncodePackets, Packets, WellFormed;
      assert s == s[..end] + s[end..];
    }
  }

  lemma JoinPackets(p: Packet, ps: seq<Packet>)
    ensures EncodePackets([p] + ps) == EncodePacket(p) + EncodePackets(ps)
  {
    assert ([p] + ps)[1..] == ps;
  }

  /** Parsing works exactly on the whole numbers of packets. */
  lemma WholePacketsIff(s: seq<Byte>)
    ensures Packets(s).Some? <==> exists ps :: (forall p :: p in ps ==> WellFormed(p)) && EncodePackets(ps) == s
  {
    if Packets(s).Some? { PacketsAreAll(s); }
    if ps :| (forall p :: p in ps ==> WellFormed(p)) && EncodePackets(ps) == s { PacketsRoundTrip(ps); }
  }

  lemma {:induction false} PacketsStep(done: seq<Packet>, p: Packet, stream: Byte)
    ensures OfStream(done + [p], stream) == OfStream(done, stream) + if p.stream == stream then p.payload else []
  {
    if done != [] {
      assert (done + [p])[1..] == done[1..] + [p];
      PacketsStep(done[1..], p, stream);
    }
  }

  // ---- Connections ----

  const NEWLINE: Byte := 10

  /** The prefix up to and including the first newline, or everything. */
  function FirstLine(s: seq<Byte>): (l: seq<Byte>)
    ensures l <= s
    ensures l != [] && l[|l| - 1] == NEWLINE ==> NEWLINE !in l[..|l| - 1]
    ensures (l != [] && l[|l| - 1] == NEWLINE) || (l == s && NEWLINE !in s)
  {
    if s == [] then []
    else if s[0] == NEWLINE then [s[0]]
    else
      var rest := FirstLine(s[1..]);
      assert rest != [] ==> ([s[0]] + rest)[..|rest|] == [s[0]] + rest[..|rest| - 1];
      [s[0]] + rest
  }

  lemma {:induction false} FirstLineIgnoresRest(s: seq<Byte>, t: seq<Byte>)
    ensures NEWLINE in s ==> FirstLine(s + t) == FirstLine(s)
  {
    if s != [] {
      assert (s + t)[1..] == s[1..] + t;
      FirstLineIgnoresRest(s[1..], t);
    }
  }

  lemma Moved(got: seq<Byte>, buf: seq<Byte>, k: nat, wire: seq<Byte>)
    requires k <= |buf|
    ensures got + (buf + wire) == got + buf[..k] + (buf[k..] + wire)
  {
    assert buf == buf[..k] + buf[k..];
  }

  /** A connection read through a buffer: `wire` is what the peer has yet to deliver before it
      closes, `buf` what the buffered reader has pulled off the wire already. */
  class BufferedConn {
    var buf: seq<Byte>
    var wire: seq<Byte>

    ghost function Pending(): seq<Byte>
      reads this
    {
      buf + wire
    }

    constructor (wire: seq<Byte>)
      ensures Pending() == wire
    {
      this.buf, this.wire := [], wire;
    }

    /** One read of the connection: any number of bytes, at least one. */
    method Fill()
      requires wire != []
      modifies this
      ensures Pending() == old(Pending()) && |wire| < old(|wire|) && old(buf) <= buf
    {
      var n :| 0 < n <= |wire|;
      buf, wire := buf + wire[..n], wire[n..];
      assert buf + wire == old(buf) + (old(wire)[..n] + old(wire)[n..]);
    }

    /** ReadString('\n'). */
    method ReadLine() returns (line: seq<Byte>, ok: bool)
      modifies this
      ensures line == FirstLine(old(Pending())) && (ok <==> NEWLINE in old(Pending()))
      ensures line + Pending() == old(Pending())
    {
      hide FirstLine;
      while NEWLINE !in buf && wire != []
        invariant Pending() == old(Pending())
        decreases |wire|
      {
        Fill();
      }
      FirstLineIgnoresRest(buf, wire);
      ok := NEWLINE in buf;
      line := FirstLine(buf);
      assert ok || buf + wire == buf;
      Moved([], buf, |line|, wire);
      buf := buf[|line|..];
    }

    /** io.ReadFull: all `n` bytes, or as many as there are and how the stream ended. */
    method ReadFull(n: nat) returns (got: seq<Byte>, end: Option<End>)
      modifies this
      ensures got + Pending() == old(Pending())
      ensures |got| == if n <= |old(Pending())| then n else |old(Pending())|
      ensures end == if n <= |old(Pending())| then None
                     else if old(Pending()) == [] then Some(EndOfStream) else Some(Truncated)
    {
      got := [];
      assert [] + Pending() == Pending();
      while |got| < n && (buf != [] || wire != [])
        invariant got + Pending() == old(Pending()) && |got| <= n
        decreases |wire|, |buf|
      {
        if buf == [] { Fill(); }
        var k := if n - |got| < |buf| then n - |got| else |buf|;
        Moved(got, buf, k, wire);
        got, buf := got + buf[..k], buf[k..];
      }
      end := if |got| == n then None else if got == [] then Some(EndOfStream) else Some(Truncated);
    }

    method NextFrame() returns (r: Option<Frame>, end: End)
      modifies this
      ensures match ReadFrame(old(Pending()))
              case Got(f, rest) => r == Some(f) && Pending() == rest
              case Ended(e) => r == None && end == e
    {
      ghost var s := Pending();
      end := EndOfStream;
      var header, failed := ReadFull(5);
      if failed.Some? { return None, failed.value; }
      assert header == s[..5] && Pending() == s[5..];
      assert header[1..] == s[1..5];
      var length := FromU32(header[1..]);
      var payload := [];
      if length > 0 {
        payload, failed := ReadFull(length);
        if failed.Some? { return None, failed.value; }
        assert payload == s[5..5 + length] && Pending() == s[5 + length..];
      }
      r := Some(Frame(header[0], payload));
    }
  }

  lemma {:induction false} DeliveredSkips(fs: seq<Frame>, size: nat)
    requires fs != [] && fs[0].typ != FRAME_DATA
    ensures Delivered(fs, size) == Delivered(fs[1..], size)
  {}

  class FirecrackerShell {
    const conn: BufferedConn
    /** Everything written to the connection. */
    var sent: seq<Byte>

    constructor (conn: BufferedConn)
      ensures this.conn == conn && sent == []
    {
      this.conn, this.sent := conn, [];
    }

    /** dialShellConn: a shell only behind a greeting that starts with OK, and with every byte
        after the greeting still to be read - also the ones the buffer had swallowed. */
    static method Dial(conn: BufferedConn) returns (shell: Option<FirecrackerShell>)
      modifies conn
      ensures var all := old(conn.Pending());
              && (shell.Some? <==> NEWLINE in all && [79, 75] <= FirstLine(all))  // "OK"
              && (shell.Some? ==> shell.value.conn == conn && FirstLine(all) + conn.Pending() == all)
    {
      var line, ok := conn.ReadLine();
      if !ok || !([79, 75] <= line) { return None; }
      var s := new FirecrackerShell(conn);
      shell := Some(s);
    }

    /** The next data payload, cut to the buffer; frames of other types are skipped. */
    method Read(size: nat) returns (chunk: Option<seq<Byte>>, end: End)
      modifies conn
      ensures var (before, e) := Remaining(old(conn.Pending()), size);
              match chunk
              case None => before == [] && end == e
              case Some(bytes) =>
                var (after, e') := Remaining(conn.Pending(), size);
                && before == bytes + after && e == e'
                && |bytes| <= size && |conn.Pending()| < old(|conn.Pending()|)
    {
      ghost var (all, e0) := ReadAll(conn.Pending());
      end := EndOfStream;
      while true
        invariant |conn.Pending()| <= old(|conn.Pending()|)
        invariant var (rest, e) := ReadAll(conn.Pending());
                  e == e0 && Delivered(all, size) == Delivered(rest, size)
        decreases |conn.Pending()|
      {
        ghost var (fs, _) := ReadAll(conn.Pending());
        var frame;
        frame, end := conn.NextFrame();
        if frame.None? {
          assert fs == [];
          return None, end;
        }
        assert fs[0] == frame.value && fs[1..] == ReadAll(conn.Pending()).0;
        if frame.value.typ == FRAME_DATA {
          return Some(Prefix(frame.value.payload, size)), end;
        }
        DeliveredSkips(fs, size);
      }
    }

    method Write(p: seq<Byte>)
      modifies this`sent
      ensures sent == old(sent) + Encode(Frame(FRAME_DATA, p))
      ensures sent == old(sent) + ([1] + U32(|p|) + p)
    {
      sent := sent + ([FRAME_DATA] + U32(|p|)) + p;
      assert sent == old(sent) + Encode(Frame(FRAME_DATA, p));
    }

    method Resize(cols: nat, rows: nat)
      requires cols < UINT16 && rows < UINT16
      modifies this`sent
      ensures sent == old(sent) + Encode(InputFrame(Input.Resize(cols, rows)))
      ensures sent == old(sent) + ([2] + U32(4) + U16(cols) + U16(rows))
    {
      var payload := U16(cols) + U16(rows);
      sent := sent + ([FRAME_RESIZE] + U32(4)) + payload;
      assert sent == old(sent) + Encode(Frame(FRAME_RESIZE, payload));
      assert sent == old(sent) + ([2] + U32(4) + U16(cols) + U16(rows));
    }
  }

  /** What a reader of at most `size` bytes at a time has still to deliver from `s`, and how it
      ends. */
  function Remaining(s: seq<Byte>, size: nat): (seq<Byte>, End)
  {
    var (fs, end) := ReadAll(s);
    (Delivered(fs, size), end)
  }

  /** The session's output loop: what reaches the client, until the shell's stream ends. */
  method PumpSession(shell: FirecrackerShell) returns (out: seq<Byte>, end: End)
    modifies shell.conn
    ensures (out, end) == Remaining(old(shell.conn.Pending()), 32 * 1034)
  {
    out, end := [], EndOfStream;
    ghost var all := Remaining(shell.conn.Pending(), SESSION_BUFFER);
    assert out + all.0 == all.0;
    var chunk := Some([]);
    while chunk.Some?
      invariant match chunk
                case Some(_) =>
                  var left := Remaining(shell.conn.Pending(), SESSION_BUFFER);
                  out + left.0 == all.0 && left.1 == all.1
                case None => (out, end) == all
      decreases chunk.Some?, |shell.conn.Pending()|
    {
      ghost var left := Remaining(shell.conn.Pending(), SESSION_BUFFER);
      chunk, end := shell.Read(SESSION_BUFFER);
      Delivers(out, chunk, left.0, Remaining(shell.conn.Pending(), SESSION_BUFFER).0);
      if chunk.Some? && |chunk.value| > 0 { out := out + chunk.value; }
      hide ReadAll, Delivered;
    }
  }

  lemma Delivers(out: seq<Byte>, chunk: Option<seq<Byte>>, left: seq<Byte>, after: seq<Byte>)
    ensures chunk.Some? && left == chunk.value + after ==> out + left == (out + chunk.value) + after
    ensures left == [] ==> out + left == out
    ensures chunk == Some([]) ==> out + chunk.value == out
  {}

  /** A greeting that the guest agent's proxy may send: one line that starts with OK. */
  predicate IsGreeting(line: seq<Byte>)
  {
    NEWLINE in line && FirstLine(line) == line && [79, 75] <= line
  }

  /** Any line of "OK", a tail and a newline is one, whatever follows it; nothing else is. */
  lemma GreetingsAreOK(tail: seq<Byte>, rest: seq<Byte>)
    requires 10 !in tail
    ensures IsGreeting([79, 75] + tail + [10])
    ensures FirstLine([79, 75] + tail + [10] + rest) == [79, 75] + tail + [10]
    ensures forall line :: IsGreeting(line) ==> |line| >= 3 && line[0] == 79 && line[1] == 75 && line[|line| - 1] == 10
  {
    hide FirstLine;
    OKLine(tail);
    FirstLineIgnoresRest([79, 75] + tail + [10], rest);
    forall l | IsGreeting(l) ensures |l| >= 3 && l[0] == 79 && l[1] == 75 && l[|l| - 1] == 10 {
      GreetingEnds(l);
    }
    hide IsGreeting;
  }

  lemma OKLine(tail: seq<Byte>)
    requires 10 !in tail
    ensures var line := [79, 75] + tail + [10];
            IsGreeting(line) && NEWLINE in line && FirstLine(line) == line
  {
    hide FirstLine;
    var head := [79, 75] + tail;
    LineEnds(head);
    assert (head + [10])[..2] == [79, 75] && (head + [10])[|head|] == 10;
  }

  lemma GreetingEnds(line: seq<Byte>)
    requires IsGreeting(line)
    ensures |line| >= 3 && line[0] == 79 && line[1] == 75 && line[|line| - 1] == 10
  {
    assert FirstLine(line) == line;
    hide FirstLine;
  }

  lemma {:induction false} LineEnds(s: seq<Byte>)
    requires 10 !in s
    ensures FirstLine(s + [10]) == s + [10]
  {
    if s != [] {
      assert (s + [10])[1..] == s[1..] + [10];
      LineEnds(s[1..]);
    }
  }

  /** Opening a shell and reading it to its end. */
  method OpenSession(conn: BufferedConn) returns (out: Option<seq<Byte>>)
    modifies conn
    ensures var all := old(conn.Pending());
            out == if NEWLINE in all && [79, 75] <= FirstLine(all)
                   then Some(Remaining(all[|FirstLine(all)|..], 32 * 1034).0) else None
  {
    ghost var all := conn.Pending();
    var shell := FirecrackerShell.Dial(conn);
    if shell.None? { return None; }
    assert conn.Pending() == all[|FirstLine(all)|..];
    var bytes, end := PumpSession(shell.value);
    out := Some(bytes);
  }

  /** The whole way: behind an accepted greeting, a session delivers exactly what the guest's
      terminal has put out, however its output was split into reads. */
  lemma SessionDelivers(greeting: seq<Byte>, chunks: seq<seq<Byte>>)
    requires IsGreeting(greeting) && forall c :: c in chunks ==> |c| <= 4096
    ensures var all := greeting + EncodeAll(PtyFrames(chunks));
            && NEWLINE in all && [79, 75] <= FirstLine(all)
            && Remaining(all[|FirstLine(all)|..], 32 * 1034) == (Concat(chunks), EndOfStream)
  {
    var wire := EncodeAll(PtyFrames(chunks));
    FirstLineIgnoresRest(greeting, wire);
    assert (greeting + wire)[|greeting|..] == wire;
    OutputTransparent(chunks, |wire|);
    PtyFramesCarry(chunks);
    FramesRoundTrip(PtyFrames(chunks));
  }

  /** The session's input loop: the client's binary messages and window sizes, in order. */
  method PumpInput(shell: FirecrackerShell, inputs: seq<Input>)
    requires forall i :: i in inputs ==> Allowed(i)
    modifies shell`sent
    ensures shell.sent == old(shell.sent) + EncodeAll(InputFrames(inputs))
  {
    var k := 0;
    assert inputs[0..] == inputs;
    while k < |inputs|
      invariant k <= |inputs|
      invariant shell.sent + EncodeAll(InputFrames(inputs[k..])) == old(shell.sent) + EncodeAll(InputFrames(inputs))
    {
      ghost var before, rest := shell.sent, inputs[k..];
      InputFramesStep(rest);
      assert rest[1..] == inputs[k + 1..];
      assert InputFrames(rest) == [InputFrame(rest[0])] + InputFrames(rest[1..]);
      hide InputFrames, EncodeAll, U16, U32;
      match inputs[k] {
        case Write(data) => shell.Write(data);
        case Resize(cols, rows) => shell.Resize(cols, rows);
      }
      Append(before, InputFrame(rest[0]), InputFrames(rest[1..]), InputFrames(rest));
      k := k + 1;
    }
    assert shell.sent + EncodeAll(InputFrames([])) == shell.sent;
  }

  lemma Append(sent: seq<Byte>, f: Frame, rest: seq<Frame>, fs: seq<Frame>)
    requires fs == [f] + rest
    ensures sent + Encode(f) + EncodeAll(rest) == sent + EncodeAll(fs)
  {
    assert fs[1..] == rest;
    assert sent + Encode(f) + EncodeAll(rest) == sent + (Encode(f) + EncodeAll(rest));
  }

  lemma {:induction false} ConsumeStep(p: Pty, fs: seq<Frame>)
    requires fs != []
    ensures ConsumeAll(p, fs) == ConsumeAll(Consume(p, fs[0]), fs[1..])
  {}

  /** The guest's loop over the connection: data frames go to the terminal, resize frames set its
      window, until the stream ends. */
  method HandleInput(conn: BufferedConn, input: seq<Byte>, size: Option<Window>) returns (pty: Pty)
    modifies conn
    ensures pty == ConsumeAll(Pty(input, size), ReadAll(old(conn.Pending())).0)
  {
    pty := Pty(input, size);
    while true
      invariant ConsumeAll(pty, ReadAll(conn.Pending()).0) == ConsumeAll(Pty(input, size), ReadAll(old(conn.Pending())).0)
      decreases |conn.Pending()|
    {
      ghost var fs := ReadAll(conn.Pending()).0;
      var frame, end := conn.NextFrame();
      if frame.None? {
        assert fs == [];
        return;
      }
      ConsumeStep(pty, fs);
      assert fs[0] == frame.value && fs[1..] == ReadAll(conn.Pending()).0;
      match frame.value.typ {
        case 1 => pty := pty.(input := pty.input + frame.value.payload);
        case 2 =>
          var payload := frame.value.payload;
          if |payload| == 4 {
            pty := pty.(size := Some(Window(FromU16(payload[..2]), FromU16(payload[2..]))));
          }
        case _ =>
      }
    }
  }

  /** The guest's loop over its terminal: each non-empty read becomes one data frame. */
  method PumpOutput(chunks: seq<seq<Byte>>) returns (sent: seq<Byte>)
    ensures sent == EncodeAll(PtyFrames(chunks))
  {
    sent := [];
    var i := 0;
    while i < |chunks|
      invariant 0 <= i <= |chunks|
      invariant sent + EncodeAll(PtyFrames(chunks[i..])) == EncodeAll(PtyFrames(chunks))
    {
      var c := chunks[i];
      PtyFramesStep(sent, chunks[i..]);
      assert chunks[i..][1..] == chunks[i + 1..];
      if |c| > 0 { sent := sent + ([FRAME_DATA] + U32(|c|) + c); }
      i := i + 1;
    }
  }

  lemma PtyFramesStep(sent: seq<Byte>, chunks: seq<seq<Byte>>)
    requires chunks != []
    ensures var c, rest := chunks[0], EncodeAll(PtyFrames(chunks[1..]));
            sent + EncodeAll(PtyFrames(chunks))
            == (if |c| > 0 then sent + ([FRAME_DATA] + U32(|c|) + c) else sent) + rest
  {
    hide U32;
    var c, rest := chunks[0], PtyFrames(chunks[1..]);
    if |c| > 0 {
      Append(sent, Frame(FRAME_DATA, c), rest, PtyFrames(chunks));
    } else {
      assert PtyFrames(chunks) == rest;
    }
  }

  /** The streams come out whole and apart, whatever the interleaving; bytes that are not a whole
      number of packets give an error and no output. */
  method DemuxOutput(conn: BufferedConn) returns (out: seq<Byte>, err: seq<Byte>, ok: bool)
    modifies conn
    ensures ok <==> Packets(old(conn.Pending())).Some?
    ensures ok ==> out == OfStream(Packets(old(conn.Pending())).value, 1)
    ensures ok ==> err == OfStream(Packets(old(conn.Pending())).value, 2)
    ensures !ok ==> out == [] && err == []
  {
    out, err := [], [];
    ghost var done: seq<Packet> := [];
    assert forall ps: seq<Packet> :: [] + ps == ps;
    hide FromU32;
    while true
      invariant out == OfStream(done, 1) && err == OfStream(done, 2)
      invariant Continues(old(conn.Pending()), done, conn.Pending())
      decreases |conn.Pending()|
    {
      ghost var s := conn.Pending();
      var header, end := conn.ReadFull(8);
      if end == Some(EndOfStream) {
        assert done + [] == done;
        return out, err, true;
      }
      if end.Some? { return [], [], false; }
      ghost var t := conn.Pending();
      var size := FromU32(header[4..8]);
      var payload;
      payload, end := conn.ReadFull(size);
      if end.Some? {
        CutPacket(s, header, t);
        return [], [], false;
      }
      SplitPacket(s, header, payload, conn.Pending());
      ghost var p := Packet(header[0], header[1..4], payload);
      PacketsStep(done, p, 1);
      PacketsStep(done, p, 2);
      NextPacket(old(conn.Pending()), done, s, p, conn.Pending());
      done := done + [p];
      if header[0] == 1 { out := out + payload; }
      else if header[0] == 2 { err := err + payload; }
    }
  }

  /** `all` is the packets `done` followed by `rest`. */
  ghost predicate Continues(all: seq<Byte>, done: seq<Packet>, rest: seq<Byte>)
  {
    Packets(all) == match Packets(rest)
                    case None => None
                    case Some(ps) => Some(done + ps)
  }

  lemma NextPacket(all: seq<Byte>, done: seq<Packet>, s: seq<Byte>, p: Packet, rest: seq<Byte>)
    requires Continues(all, done, s)
    requires Packets(s) == match Packets(rest) case None => None case Some(ps) => Some([p] + ps)
    ensures Continues(all, done + [p], rest)
  {
    hide Packets;
    if Packets(rest).Some? {
      assert done + ([p] + Packets(rest).value) == done + [p] + Packets(rest).value;
    }
  }
}
