/** The two decoders of Docker's multiplexed stream format: stripDockerHeaders of
    filesystem_service.go and the frame loop of streamLogs in hub.go.  A frame is an eight-byte
    header, the stream type in byte 0 and the payload length in bytes 4 to 7, big-endian,
    followed by the payload. */
module DockerStream {
  import opened Seqs

  type byte = b: int | 0 <= b < 0x100

  const MAX_CHUNK := 0x10_0000

  // The format

  datatype Frame = Frame(stream: byte, pad1: byte, pad2: byte, pad3: byte, payload: seq<byte>)

  function BigEndian(b3: byte, b2: byte, b1: byte, b0: byte): (n: nat)
    ensures n < 0x1_0000_0000
  {
    b3 * 0x100_0000 + b2 * 0x1_0000 + b1 * 0x100 + b0
  }

  /** The payload length a header announces. */
  function SizeOf(data: seq<byte>): nat
    requires |data| >= 8
  {
    BigEndian(data[4], data[5], data[6], data[7])
  }

  ghost predicate WellFormed(f: Frame) {
    f.stream <= 2 && |f.payload| < 0x1_0000_0000
  }

  ghost predicate AllWellFormed(frames: seq<Frame>) {
    forall f :: f in frames ==> WellFormed(f)
  }

  /** A 32-bit length, most significant byte first. */
  ghost function LengthBytes(n: nat): (bytes: seq<byte>)
    requires n < 0x1_0000_0000
    ensures |bytes| == 4 && BigEndian(bytes[0], bytes[1], bytes[2], bytes[3]) == n
  {
    var n1 := n / 0x100;
    var n2 := n1 / 0x100;
    [n2 / 0x100, n2 % 0x100, n1 % 0x100, n % 0x100]
  }

  ghost function EncodeFrame(f: Frame): seq<byte>
    requires WellFormed(f)
  {
    [f.stream, f.pad1, f.pad2, f.pad3] + LengthBytes(|f.payload|) + f.payload
  }

  ghost function Encode(frames: seq<Frame>): seq<byte>
    requires AllWellFormed(frames)
  {
    if frames == [] then [] else EncodeFrame(frames[0]) + Encode(frames[1..])
  }

  ghost function Payloads(frames: seq<Frame>): seq<byte> {
    if frames == [] then [] else frames[0].payload + Payloads(frames[1..])
  }

  lemma EncodeCons(f: Frame, frames: seq<Frame>)
    requires WellFormed(f) && AllWellFormed(frames)
    ensures AllWellFormed([f] + frames)
    ensures Encode([f] + frames) == EncodeFrame(f) + Encode(frames)
    ensures Payloads([f] + frames) == f.payload + Payloads(frames)
  {
    TakeDrop([f], frames);
  }

  lemma HeaderOf(f: Frame, rest: seq<byte>)
    requires WellFormed(f)
    ensures var data := EncodeFrame(f) + rest;
            |data| >= 8 && data[0] == f.stream && SizeOf(data) == |f.payload| && data[8..] == f.payload + rest
  {
    hide BigEndian;
    var data := EncodeFrame(f) + rest;
    assert data[4..8] == LengthBytes(|f.payload|);
  }

  // stripDockerHeaders

  /** Where the frame at the head of the data ends: at its announced size, or where the data does. */
  ghost function FrameEnd(data: seq<byte>): (end: nat)
    requires |data| >= 8
    ensures 8 <= end <= |data|
  {
    if SizeOf(data) > |data| - 8 then |data| else 8 + SizeOf(data)
  }

  /** The bytes the decoding loop collects. */
  ghost function Collected(data: seq<byte>): seq<byte> {
    if |data| < 8 then []
    else if data[0] > 2 then data
    else data[8..FrameEnd(data)] + Collected(data[FrameEnd(data)..])
  }

  /** The bytes the decoding loop leaves unread. */
  ghost function Leftover(data: seq<byte>): seq<byte> {
    if |data| < 8 || data[0] > 2 then data else Leftover(data[FrameEnd(data)..])
  }

  ghost function Stripped(data: seq<byte>): seq<byte> {
    if Collected(data) == [] then Leftover(data) else Collected(data)
  }

  lemma CollectOneFrame(result: seq<byte>, data: seq<byte>)
    requires |data| >= 8 && data[0] <= 2
    ensures result + Collected(data) == result + data[8..FrameEnd(data)] + Collected(data[FrameEnd(data)..])
  {
  }

  method StripDockerHeaders(input: seq<byte>) returns (output: seq<byte>)
    ensures output == Stripped(input)
    ensures |output| <= |input|
  {
    var data, result := input, [];
    while |data| >= 8
      invariant |result| + |data| <= |input|
      invariant Collected(input) == result + Collected(data)
      invariant Leftover(input) == Leftover(data)
      decreases |data|
    {
      var streamType := data[0];
      if streamType > 2 {
        result := result + data;
        return result;
      }
      CollectOneFrame(result, data);
      ghost var frame, end := data, FrameEnd(data);
      var size := SizeOf(data);
      data := data[8..];
      if size > |data| {
        size := |data|;
      }
      assert data[..size] == frame[8..end] && data[size..] == frame[end..];
      result := result + data[..size];
      data := data[size..];
    }
    assert result + [] == result;
    if |data| > 0 && |result| == 0 {
      return data;
    }
    return result;
  }

  /** What a decoder can find where the well-formed frames of its input end. */
  datatype Tail =
    | Short       // too few bytes for a header
    | NoHeader    // the next byte is no stream type
    | Truncated   // a header announcing more bytes than there are

  ghost function Classify(tail: seq<byte>): (t: Tail)
    requires Stops(tail)
  {
    if |tail| < 8 then Short else if tail[0] > 2 then NoHeader else Truncated
  }

  /** No complete frame starts here. */
  ghost predicate Stops(tail: seq<byte>) {
    |tail| < 8 || tail[0] > 2 || SizeOf(tail) > |tail| - 8
  }

  /** Any input is a series of complete frames followed by such a tail ... */
  lemma {:induction false} EveryInputDecomposes(data: seq<byte>) returns (frames: seq<Frame>, tail: seq<byte>)
    ensures AllWellFormed(frames) && Stops(tail)
    ensures data == Encode(frames) + tail
    decreases |data|
  {
    if Stops(data) {
      frames, tail := [], data;
      EmptyLeft(data);
    } else {
      var end := FrameEnd(data);
      var f := FirstFrame(data);
      var others;
      others, tail := EveryInputDecomposes(data[end..]);
      frames := [f] + others;
      EncodeCons(f, others);
      Halves(data, end);
      Assoc(EncodeFrame(f), Encode(others), tail);
    }
  }

  /** ... and in one way only. */
  lemma {:induction false} DecompositionIsUnique(a: seq<Frame>, s: seq<byte>, b: seq<Frame>, t: seq<byte>)
    requires AllWellFormed(a) && AllWellFormed(b) && Stops(s) && Stops(t)
    requires Encode(a) + s == Encode(b) + t
    ensures a == b && s == t
  {
    if a == [] || b == [] {
      EmptyLeft(s);
      EmptyLeft(t);
      if a != [] {
        FrameDoesNotStop(a, s);
      } else if b != [] {
        FrameDoesNotStop(b, t);
      }
    } else {
      var restA, restB := Encode(a[1..]) + s, Encode(b[1..]) + t;
      Assoc(EncodeFrame(a[0]), Encode(a[1..]), s);
      Assoc(EncodeFrame(b[0]), Encode(b[1..]), t);
      SameFirstFrame(a[0], restA, b[0], restB);
      DecompositionIsUnique(a[1..], s, b[1..], t);
      assert a == [a[0]] + a[1..] && b == [b[0]] + b[1..];
    }
  }

  lemma FrameDoesNotStop(frames: seq<Frame>, tail: seq<byte>)
    requires frames != [] && AllWellFormed(frames)
    ensures !Stops(Encode(frames) + tail)
  {
    Assoc(EncodeFrame(frames[0]), Encode(frames[1..]), tail);
    HeaderOf(frames[0], Encode(frames[1..]) + tail);
  }

  lemma SameFirstFrame(f: Frame, restF: seq<byte>, g: Frame, restG: seq<byte>)
    requires WellFormed(f) && WellFormed(g) && EncodeFrame(f) + restF == EncodeFrame(g) + restG
    ensures f == g && restF == restG
  {
    var data := EncodeFrame(f) + restF;
    HeaderOf(f, restF);
    HeaderOf(g, restG);
    TakeDrop(f.payload, restF);
    TakeDrop(g.payload, restG);
    assert data[1] == f.pad1 && data[1] == g.pad1;
    assert data[2] == f.pad2 && data[2] == g.pad2;
    assert data[3] == f.pad3 && data[3] == g.pad3;
  }

  lemma FirstFrame(data: seq<byte>) returns (f: Frame)
    requires !Stops(data)
    ensures WellFormed(f) && EncodeFrame(f) == data[..FrameEnd(data)]
  {
    f := Frame(data[0], data[1], data[2], data[3], data[8..8 + SizeOf(data)]);
    BytesOf(data[4], data[5], data[6], data[7]);
  }

  lemma BytesOf(b3: byte, b2: byte, b1: byte, b0: byte)
    ensures LengthBytes(BigEndian(b3, b2, b1, b0)) == [b3, b2, b1, b0]
  {
    var n := BigEndian(b3, b2, b1, b0);
    var n1 := n / 0x100;
    assert n == n1 * 0x100 + n % 0x100;
    assert n1 == b3 * 0x1_0000 + b2 * 0x100 + b1;
    var n2 := n1 / 0x100;
    assert n2 == b3 * 0x100 + b2;
  }

  /** The result on that decomposition: the payloads, then what the tail has to offer.  A short
      tail is shown raw when nothing else was decoded. */
  lemma {:induction false} StripMeaning(frames: seq<Frame>, tail: seq<byte>)
    requires AllWellFormed(frames) && Stops(tail)
    ensures Stripped(Encode(frames) + tail) == Payloads(frames) +
              match Classify(tail) {
                case Short => if Payloads(frames) == [] then tail else []
                case NoHeader => tail
                case Truncated => tail[8..]
              }
  {
    CollectedOf(frames, tail);
    EmptyRight(Payloads(frames));
    if Payloads(frames) == [] {
      EmptyLeft(tail);
      EmptyLeft(Collected(tail));
    }
    if Classify(tail).Truncated? {
      assert FrameEnd(tail) == |tail|;
      EmptyRight(tail[8..]);
    }
  }

  lemma {:induction false} CollectedOfFrame(f: Frame, rest: seq<byte>)
    requires WellFormed(f)
    ensures Collected(EncodeFrame(f) + rest) == f.payload + Collected(rest)
    ensures Leftover(EncodeFrame(f) + rest) == Leftover(rest)
  {
    var data := EncodeFrame(f) + rest;
    HeaderOf(f, rest);
    assert FrameEnd(data) == 8 + |f.payload|;
    assert data[8..8 + |f.payload|] == data[8..][..|f.payload|] == f.payload;
    assert data[8 + |f.payload|..] == data[8..][|f.payload|..] == rest;
  }

  lemma {:induction false} CollectedOf(frames: seq<Frame>, tail: seq<byte>)
    requires AllWellFormed(frames)
    ensures Collected(Encode(frames) + tail) == Payloads(frames) + Collected(tail)
    ensures Leftover(Encode(frames) + tail) == Leftover(tail)
  {
    if frames == [] {
      EmptyLeft(tail);
      EmptyLeft(Collected(tail));
    } else {
      var f, rest := frames[0], Encode(frames[1..]) + tail;
      Assoc(EncodeFrame(f), Encode(frames[1..]), tail);
      CollectedOfFrame(f, rest);
      CollectedOf(frames[1..], tail);
      Assoc(f.payload, Payloads(frames[1..]), Collected(tail));
    }
  }

  /** Decoding inverts encoding. */
  lemma StripInvertsEncode(frames: seq<Frame>)
    requires AllWellFormed(frames)
    ensures Stripped(Encode(frames)) == Payloads(frames)
  {
    StripMeaning(frames, []);
    assert Encode(frames) + [] == Encode(frames);
  }

  /** Anything that does not start like a Docker stream is passed through unchanged. */
  lemma PlainBytesPassThrough(data: seq<byte>)
    requires data != [] && data[0] > 2
    ensures Stripped(data) == data
  {
  }

  // streamLogs

  datatype LogEntry = LogEntry(stderr: bool, text: seq<byte>)

  /** The entries the frame loop emits when it is never cancelled. */
  ghost function Entries(data: seq<byte>): seq<LogEntry> {
    if |data| < 8 then []
    else
      var size := SizeOf(data);
      if size == 0 || size > MAX_CHUNK then Entries(data[8..])
      else if size > |data| - 8 then []
      else [LogEntry(data[0] == 2, data[8..8 + size])] + Entries(data[8 + size..])
  }

  /** How far the loop is: what it emitted, and what is left from `pos` on, are the entries. */
  ghost predicate EmittedUpTo(stream: seq<byte>, entries: seq<LogEntry>, pos: nat) {
    pos <= |stream| && Entries(stream) == entries + Entries(stream[pos..])
  }

  lemma NothingEmitted(stream: seq<byte>)
    ensures EmittedUpTo(stream, [], 0)
  {
    assert stream[0..] == stream;
    EmptyLeft(Entries(stream));
  }

  lemma HeaderSkipped(stream: seq<byte>, entries: seq<LogEntry>, pos: nat)
    requires EmittedUpTo(stream, entries, pos) && pos + 8 <= |stream|
    requires SizeOf(stream[pos..]) == 0 || SizeOf(stream[pos..]) > MAX_CHUNK
    ensures EmittedUpTo(stream, entries, pos + 8)
  {
    DropDrop(stream, pos, 8);
  }

  lemma EntryEmitted(stream: seq<byte>, entries: seq<LogEntry>, pos: nat, size: nat)
    requires EmittedUpTo(stream, entries, pos) && pos + 8 + size <= |stream|
    requires size == SizeOf(stream[pos..]) && 0 < size <= MAX_CHUNK
    ensures var entry := LogEntry(stream[pos] == 2, stream[pos + 8..pos + 8 + size]);
            EmittedUpTo(stream, entries + [entry], pos + 8 + size)
  {
    SliceOfDrop(stream, pos, 8, 8 + size);
    DropDrop(stream, pos, 8 + size);
    Assoc(entries, [LogEntry(stream[pos] == 2, stream[pos + 8..pos + 8 + size])], Entries(stream[pos + 8 + size..]));
  }

  lemma AllEmitted(stream: seq<byte>, entries: seq<LogEntry>, pos: nat)
    requires EmittedUpTo(stream, entries, pos)
    requires |stream| < pos + 8 || 0 < SizeOf(stream[pos..]) <= MAX_CHUNK
    requires |stream| < pos + 8 || |stream| < pos + 8 + SizeOf(stream[pos..])
    ensures entries == Entries(stream)
  {
    EmptyRight(entries);
  }

  lemma EmittedIsPrefix(stream: seq<byte>, entries: seq<LogEntry>, pos: nat)
    requires EmittedUpTo(stream, entries, pos)
    ensures entries <= Entries(stream)
  {
  }

  /** `stream` is all the reader will deliver; the context is seen cancelled after `turns` turns of
      the loop. */
  method StreamLogs(stream: seq<byte>, turns: nat) returns (entries: seq<LogEntry>)
    ensures entries <= Entries(stream)
    ensures turns > |stream| / 8 ==> entries == Entries(stream)
  {
    hide Entries, EmittedUpTo;
    entries := [];
    var header := new byte[8];
    var pos, turn := 0, 0;
    NothingEmitted(stream);
    while turn < turns
      invariant 0 <= pos <= |stream| && turn <= turns
      invariant 8 * turn <= pos
      invariant EmittedUpTo(stream, entries, pos)
      decreases turns - turn
    {
      if |stream| - pos < 8 {
        AllEmitted(stream, entries, pos);
        return;
      }
      forall k | 0 <= k < 8 {
        header[k] := stream[pos + k];
      }
      var size: int := BigEndian(header[4], header[5], header[6], header[7]);
      assert size == SizeOf(stream[pos..]);
      turn := turn + 1;
      if size <= 0 || size > MAX_CHUNK {
        HeaderSkipped(stream, entries, pos);
        pos := pos + 8;
        continue;
      }
      if |stream| - pos - 8 < size {
        AllEmitted(stream, entries, pos);
        return;
      }
      EntryEmitted(stream, entries, pos, size);
      entries := entries + [LogEntry(header[0] == 2, stream[pos + 8..pos + 8 + size])];
      pos := pos + 8 + size;
    }
    EmittedIsPrefix(stream, entries, pos);
  }

  ghost predicate Small(frames: seq<Frame>) {
    forall f :: f in frames ==> |f.payload| <= 1024 * 1024
  }

  /** One entry for each frame with a payload, in order. */
  ghost function Emitted(frames: seq<Frame>): seq<LogEntry> {
    if frames == [] then [] else EmittedFor(frames[0]) + Emitted(frames[1..])
  }

  ghost function Text(entries: seq<LogEntry>): seq<byte> {
    if entries == [] then [] else entries[0].text + Text(entries[1..])
  }

  ghost function EmittedFor(f: Frame): seq<LogEntry> {
    if f.payload == [] then [] else [LogEntry(f.stream == 2, f.payload)]
  }

  lemma {:induction false} EntriesOfFrame(f: Frame, rest: seq<byte>)
    requires WellFormed(f) && |f.payload| <= MAX_CHUNK
    ensures Entries(EncodeFrame(f) + rest) == EmittedFor(f) + Entries(rest)
  {
    var data := EncodeFrame(f) + rest;
    HeaderOf(f, rest);
    if f.payload == [] {
      assert data[8..] == rest;
    } else {
      assert data[8..8 + |f.payload|] == data[8..][..|f.payload|] == f.payload;
      assert data[8 + |f.payload|..] == data[8..][|f.payload|..] == rest;
    }
  }

  lemma {:induction false} EntriesOf(frames: seq<Frame>, tail: seq<byte>)
    requires AllWellFormed(frames) && Small(frames)
    ensures Entries(Encode(frames) + tail) == Emitted(frames) + Entries(tail)
  {
    if frames == [] {
      EmptyLeft(tail);
      EmptyLeft(Entries(tail));
    } else {
      var f, rest := frames[0], Encode(frames[1..]) + tail;
      Assoc(EncodeFrame(f), Encode(frames[1..]), tail);
      EntriesOfFrame(f, rest);
      EntriesOf(frames[1..], tail);
      Assoc(EmittedFor(f), Emitted(frames[1..]), Entries(tail));
    }
  }

  lemma {:induction false} TextOfEmitted(frames: seq<Frame>)
    ensures Text(Emitted(frames)) == Payloads(frames)
  {
    if frames != [] {
      TextOfEmitted(frames[1..]);
      if frames[0].payload != [] {
        assert Emitted(frames)[1..] == Emitted(frames[1..]);
      } else {
        assert Emitted(frames) == Emitted(frames[1..]);
      }
    }
  }

  /** On a stream of frames of at most one mebibyte both decoders deliver the same bytes, and the
      log decoder attributes each frame to its stream. */
  lemma DecodersAgree(frames: seq<Frame>)
    requires AllWellFormed(frames) && Small(frames)
    ensures Entries(Encode(frames)) == Emitted(frames)
    ensures Text(Entries(Encode(frames))) == Stripped(Encode(frames))
  {
    EntriesOf(frames, []);
    assert Encode(frames) + [] == Encode(frames);
    TextOfEmitted(frames);
    StripInvertsEncode(frames);
  }

  /** On a larger frame they do not: the log decoder skips the header and reads the payload as if it were
      headers and frames ... */
  lemma LargePayloadIsReadAsFrames(f: Frame, rest: seq<byte>)
    requires WellFormed(f) && |f.payload| > 1024 * 1024
    ensures Entries(EncodeFrame(f) + rest) == Entries(f.payload + rest)
  {
    HeaderOf(f, rest);
  }

  ghost predicate Zeros(data: seq<byte>) {
    forall i :: 0 <= i < |data| ==> data[i] == 0
  }

  lemma {:induction false} ZerosAreNoEntries(data: seq<byte>)
    requires Zeros(data)
    ensures Entries(data) == []
  {
    if |data| >= 8 {
      ZerosAreNoEntries(data[8..]);
    }
  }

  /** ... so one of zeros is lost, where stripDockerHeaders delivers it. */
  lemma LargeFrameIsLost(f: Frame)
    requires WellFormed(f) && |f.payload| > 1024 * 1024 && Zeros(f.payload)
    ensures Entries(Encode([f])) == [] && Stripped(Encode([f])) == f.payload
  {
    EncodeCons(f, []);
    StripInvertsEncode([f]);
    assert [f] + [] == [f] && f.payload + [] == f.payload;
    LargePayloadIsReadAsFrames(f, []);
    assert EncodeFrame(f) + [] == Encode([f]);
    ZerosAreNoEntries(f.payload);
  }

  lemma CutFrameStops(f: Frame, n: nat)
    requires WellFormed(f) && |f.payload| <= MAX_CHUNK && n < |EncodeFrame(f)|
    ensures Stops(EncodeFrame(f)[..n]) && Entries(EncodeFrame(f)[..n]) == []
  {
    HeaderOf(f, []);
    assert EncodeFrame(f) + [] == EncodeFrame(f);
  }

  /** Cutting a stream leaves some whole frames and a tail that no complete frame starts. */
  lemma {:induction false} CutLeavesWholeFrames(frames: seq<Frame>, n: nat) returns (k: nat, tail: seq<byte>)
    requires AllWellFormed(frames) && Small(frames) && n <= |Encode(frames)|
    ensures k <= |frames| && Encode(frames)[..n] == Encode(frames[..k]) + tail
    ensures Stops(tail) && Entries(tail) == []
    ensures Payloads(frames[..k]) <= Payloads(frames)
  {
    if frames == [] {
      k, tail := 0, [];
    } else {
      var f, others := frames[0], frames[1..];
      var whole := EncodeFrame(f);
      if n < |whole| {
        CutFrameStops(f, n);
        TakeWithin(whole, Encode(others), n);
        k, tail := 0, whole[..n];
        EmptyLeft(tail);
      } else {
        var m;
        m, tail := CutLeavesWholeFrames(others, n - |whole|);
        k := m + 1;
        TakeCons(frames, m);
        EncodeCons(f, others[..m]);
        TakePast(whole, Encode(others), n);
        Assoc(whole, Encode(others[..m]), tail);
        PrefixUnder(f.payload, Payloads(others[..m]), Payloads(others));
      }
    }
  }

  /** On a stream cut anywhere the log decoder delivers a prefix of what stripDockerHeaders does,
      and of what the uncut stream would have delivered. */
  lemma CutStreamGivesPrefix(frames: seq<Frame>, n: nat)
    requires AllWellFormed(frames) && Small(frames) && n <= |Encode(frames)|
    ensures Text(Entries(Encode(frames)[..n])) <= Stripped(Encode(frames)[..n])
    ensures Text(Entries(Encode(frames)[..n])) <= Stripped(Encode(frames))
  {
    var k, tail := CutLeavesWholeFrames(frames, n);
    EntriesOf(frames[..k], tail);
    assert Emitted(frames[..k]) + [] == Emitted(frames[..k]);
    TextOfEmitted(frames[..k]);
    StripMeaning(frames[..k], tail);
    StripInvertsEncode(frames);
  }
}
