/**
 Docker's multiplexed stream format (Docker Engine API, "Stream format" under
 container attach) and the four readers of it in backend/src/dockerManager.ts:
 the one-shot demultiplexers and the incremental ones of streamExec and execCapture.

 A frame is one type byte, three ignored bytes, the payload size as a big-endian
 32-bit number, and the payload.
 */
module DockerFrames {
  newtype byte = b: int | 0 <= b < 256

  type Bytes = seq<byte>

  datatype Frame = Frame(kind: byte, payload: Bytes)

  const STDOUT: byte := 1
  const STDERR: byte := 2

  /** readUInt32BE(at). */
  function Size(raw: Bytes, at: nat): (n: nat)
    requires at + 4 <= |raw|
  {
    raw[at] as nat * 0x1000000 + raw[at + 1] as nat * 0x10000 + raw[at + 2] as nat * 0x100 + raw[at + 3] as nat
  }

  /** The bytes start with a whole frame. */
  predicate StartsWithFrame(raw: Bytes) {
    |raw| >= 8 && |raw| >= 8 + Size(raw, 4)
  }

  function FirstFrame(raw: Bytes): Frame
    requires StartsWithFrame(raw)
  {
    Frame(raw[0], raw[8..8 + Size(raw, 4)])
  }

  function AfterFirst(raw: Bytes): (rest: Bytes)
    requires StartsWithFrame(raw)
    ensures |rest| < |raw|
  {
    raw[8 + Size(raw, 4)..]
  }

  /** All the whole frames the bytes start with. */
  function Frames(raw: Bytes): seq<Frame>
    decreases |raw|
  {
    if StartsWithFrame(raw) then [FirstFrame(raw)] + Frames(AfterFirst(raw)) else []
  }

  /** What is left after them: the start of a frame not yet complete. */
  function Rest(raw: Bytes): Bytes
    decreases |raw|
  {
    if StartsWithFrame(raw) then Rest(AfterFirst(raw)) else raw
  }

  /** The payload of the frames whose type is in `kinds`, in arrival order. */
  function Payload(frames: seq<Frame>, kinds: set<byte>): Bytes {
    if frames == [] then []
    else (if frames[0].kind in kinds then frames[0].payload else []) + Payload(frames[1..], kinds)
  }

  // ----- Frames of a stream that arrives in pieces

  lemma {:induction false} FramesAppend(a: Bytes, b: Bytes)
    ensures Frames(a + b) == Frames(a) + Frames(Rest(a) + b)
    ensures Rest(a + b) == Rest(Rest(a) + b)
    decreases |a|
  {
    if StartsWithFrame(a) {
      FirstOfAppend(a, b);
      FramesAppend(AfterFirst(a), b);
    }
  }

  lemma FirstOfAppend(a: Bytes, b: Bytes)
    requires StartsWithFrame(a)
    ensures StartsWithFrame(a + b) && FirstFrame(a + b) == FirstFrame(a)
    ensures AfterFirst(a + b) == AfterFirst(a) + b
  {
    assert Size(a + b, 4) == Size(a, 4);
    var n := 8 + Size(a, 4);
    assert (a + b)[8..n] == a[8..n];
    assert (a + b)[n..] == a[n..] + b;
  }

  lemma {:induction false} PayloadAppend(f: seq<Frame>, g: seq<Frame>, kinds: set<byte>)
    ensures Payload(f + g, kinds) == Payload(f, kinds) + Payload(g, kinds)
  {
    if f == [] {
      assert f + g == g;
    } else {
      PayloadAppend(f[1..], g, kinds);
      assert (f + g)[1..] == f[1..] + g;
      Associative(if f[0].kind in kinds then f[0].payload else [], Payload(f[1..], kinds), Payload(g, kinds));
    }
  }

  lemma Associative<T>(a: seq<T>, b: seq<T>, c: seq<T>)
    ensures a + (b + c) == (a + b) + c
  {
  }

  /** What one turn of every demultiplexing loop finds at offset `off`. */
  lemma FrameAt(raw: Bytes, off: nat)
    requires off + 8 <= |raw|
    ensures var end := off + 8 + Size(raw, off + 4);
      if end <= |raw| then
        && Frames(raw[off..]) == [Frame(raw[off], raw[off + 8..end])] + Frames(raw[end..])
        && Rest(raw[off..]) == Rest(raw[end..])
      else Frames(raw[off..]) == [] && Rest(raw[off..]) == raw[off..]
  {
    var here, end := raw[off..], off + 8 + Size(raw, off + 4);
    assert Size(here, 4) == Size(raw, off + 4);
    if end <= |raw| {
      assert AfterFirst(here) == raw[end..] && FirstFrame(here) == Frame(raw[off], raw[off + 8..end]);
    }
  }

  /** The loop also ends when fewer bytes than a header are left. */
  lemma NoFrameAt(raw: Bytes, off: nat)
    requires off <= |raw| < off + 8
    ensures Frames(raw[off..]) == [] && Rest(raw[off..]) == raw[off..]
  {
  }

  // ----- Framing

  function SizeBytes(n: nat): (b: Bytes)
    requires n < 0x1_0000_0000
    ensures |b| == 4
  {
    [(n / 0x1000000) as byte, (n / 0x10000 % 0x100) as byte, (n / 0x100 % 0x100) as byte, (n % 0x100) as byte]
  }

  lemma SizeRoundTrip(n: nat)
    requires n < 0x1_0000_0000
    ensures Size(SizeBytes(n), 0) == n
  {
    var a, b, c := n / 0x100, n / 0x10000, n / 0x1000000;
    assert a / 0x100 == b && b / 0x100 == c;
    assert n == a * 0x100 + n % 0x100 && a == b * 0x100 + a % 0x100 && b == c * 0x100 + b % 0x100;
  }

  /** A frame on the wire; the three pad bytes may be anything. */
  function Encode(f: Frame, pad: Bytes): Bytes
    requires |pad| == 3 && |f.payload| < 0x1_0000_0000
  {
    [f.kind] + pad + SizeBytes(|f.payload|) + f.payload
  }

  function EncodeAll(frames: seq<Frame>, pads: seq<Bytes>): Bytes
    requires |pads| == |frames|
    requires forall i :: 0 <= i < |frames| ==> |pads[i]| == 3 && |frames[i].payload| < 0x1_0000_0000
  {
    if frames == [] then [] else Encode(frames[0], pads[0]) + EncodeAll(frames[1..], pads[1..])
  }

  lemma DecodesFirst(f: Frame, pad: Bytes, more: Bytes)
    requires |pad| == 3 && |f.payload| < 0x1_0000_0000
    ensures var raw := Encode(f, pad) + more;
      StartsWithFrame(raw) && FirstFrame(raw) == f && AfterFirst(raw) == more
  {
    var raw := Encode(f, pad) + more;
    SizeRoundTrip(|f.payload|);
    assert raw[4..8] == SizeBytes(|f.payload|);
    assert Size(raw, 4) == |f.payload|;
  }

  /** Demultiplexing undoes framing, whatever incomplete frame follows. */
  lemma {:induction false} DemuxUndoesFraming(frames: seq<Frame>, pads: seq<Bytes>, tail: Bytes)
    requires |pads| == |frames| && !StartsWithFrame(tail)
    requires forall i :: 0 <= i < |frames| ==> |pads[i]| == 3 && |frames[i].payload| < 0x1_0000_0000
    ensures Frames(EncodeAll(frames, pads) + tail) == frames
    ensures Rest(EncodeAll(frames, pads) + tail) == tail
  {
    if frames == [] {
      assert EncodeAll(frames, pads) + tail == tail;
    } else {
      var more := EncodeAll(frames[1..], pads[1..]) + tail;
      DecodesFirst(frames[0], pads[0], more);
      DemuxUndoesFraming(frames[1..], pads[1..], tail);
      assert EncodeAll(frames, pads) + tail == Encode(frames[0], pads[0]) + more;
    }
  }

  // ----- The one-shot demultiplexers

  /** `demuxDockerOutput` (one type) and `demuxDockerOutputAll` (types 1 and 2). */
  method DemuxDockerOutput(raw: Bytes, kinds: set<byte>) returns (out: Bytes)
    ensures out == Payload(Frames(raw), kinds)
  {
    hide Frames, Rest, Size, Payload;
    out := [];
    var off := 0;
    assert raw[0..] == raw;
    EmptyPayload(Frames(raw), kinds);
    while off + 8 <= |raw|
      invariant off <= |raw|
      invariant Payload(Frames(raw), kinds) == out + Payload(Frames(raw[off..]), kinds)
      decreases |raw| - off
    {
      FrameAt(raw, off);
      var kind := raw[off];
      var size := Size(raw, off + 4);
      off := off + 8;
      if off + size > |raw| {
        EmptyPayload([], kinds);
        return;
      }
      PayloadOne(Frame(kind, raw[off..off + size]), Frames(raw[off + size..]), kinds);
      if kind in kinds {
        out := out + raw[off..off + size];
      }
      off := off + size;
    }
    NoFrameAt(raw, off);
    EmptyPayload([], kinds);
  }

  lemma EmptyPayload(f: seq<Frame>, kinds: set<byte>)
    ensures [] + Payload(f, kinds) == Payload(f, kinds) && Payload([], kinds) == []
  {
  }

  lemma PayloadOne(f: Frame, g: seq<Frame>, kinds: set<byte>)
    ensures forall out: Bytes ::
      out + Payload([f] + g, kinds) == (if f.kind in kinds then out + f.payload else out) + Payload(g, kinds)
  {
    assert ([f] + g)[1..] == g;
    forall out: Bytes ensures out + (f.payload + Payload(g, kinds)) == (out + f.payload) + Payload(g, kinds) {
      Associative(out, f.payload, Payload(g, kinds));
    }
  }

  // ----- streamExec

  /** The demultiplexer streamExec keeps across `data` events. */
  class StreamDemux {
    var pending: Bytes
    /** What was handed on, frame by frame; frames of other types are dropped. */
    var emitted: seq<Frame>
    ghost var received: Bytes

    ghost predicate Valid()
      reads this
    {
      && pending == Rest(received)
      && emitted == Emitted(Frames(received))
    }

    constructor ()
      ensures Valid() && received == []
    {
      pending, emitted, received := [], [], [];
    }

    method OnData(chunk: Bytes)
      requires Valid()
      modifies this
      ensures Valid() && received == old(received) + chunk
    {
      hide Frames, Rest, Size, Emitted;
      ghost var before := received;
      FramesAppend(before, chunk);
      pending := if |pending| == 0 then chunk else pending + chunk;
      assert pending == Rest(before) + chunk;
      EmittedAppend(Frames(before), Frames(pending));
      received := before + chunk;
      var off := 0;
      assert pending[0..] == pending;
      while off + 8 <= |pending|
        invariant off <= |pending|
        invariant Emitted(Frames(before + chunk)) == emitted + Emitted(Frames(pending[off..]))
        invariant Rest(before + chunk) == Rest(pending[off..])
        decreases |pending| - off
        modifies this`emitted
      {
        FrameAt(pending, off);
        var kind, size := pending[off], Size(pending, off + 4);
        if off + 8 + size > |pending| {
          break;
        }
        var frame := Frame(kind, pending[off + 8..off + 8 + size]);
        EmittedOne(frame, Frames(pending[off + 8 + size..]));
        if kind == STDOUT || kind == STDERR {
          emitted := emitted + [frame];
        }
        off := off + 8 + size;
      }
      if off + 8 > |pending| {
        NoFrameAt(pending, off);
      }
      EmittedNone();
      pending := pending[off..];
    }
  }

  lemma EmittedNone()
    ensures Emitted([]) == []
  {
  }

  lemma EmittedOne(f: Frame, g: seq<Frame>)
    ensures forall out: seq<Frame> ::
      out + Emitted([f] + g) == (if f.kind == STDOUT || f.kind == STDERR then out + [f] else out) + Emitted(g)
  {
    assert ([f] + g)[1..] == g;
  }

  function Emitted(frames: seq<Frame>): seq<Frame> {
    if frames == [] then []
    else (if frames[0].kind == STDOUT || frames[0].kind == STDERR then [frames[0]] else []) + Emitted(frames[1..])
  }

  lemma {:induction false} EmittedAppend(f: seq<Frame>, g: seq<Frame>)
    ensures Emitted(f + g) == Emitted(f) + Emitted(g)
  {
    if f == [] {
      assert f + g == g;
    } else {
      var first := if f[0].kind == STDOUT || f[0].kind == STDERR then [f[0]] else [];
      EmittedAppend(f[1..], g);
      assert (f + g)[1..] == f[1..] + g;
      Associative(first, Emitted(f[1..]), Emitted(g));
    }
  }

  function Joined(chunks: seq<Bytes>): Bytes {
    if chunks == [] then [] else chunks[0] + Joined(chunks[1..])
  }

  lemma {:induction false} JoinedSnoc(chunks: seq<Bytes>, c: Bytes)
    ensures Joined(chunks + [c]) == Joined(chunks) + c
  {
    if chunks != [] {
      JoinedSnoc(chunks[1..], c);
      assert (chunks + [c])[1..] == chunks[1..] + [c];
      Associative(chunks[0], Joined(chunks[1..]), c);
    }
  }

  lemma {:induction false} EmittedPayload(frames: seq<Frame>)
    ensures Payload(Emitted(frames), {STDOUT, STDERR}) == Payload(frames, {STDOUT, STDERR})
  {
    if frames != [] {
      EmittedPayload(frames[1..]);
      var f := frames[0];
      if f.kind == STDOUT || f.kind == STDERR {
        assert Emitted(frames) == [f] + Emitted(frames[1..]);
        assert Emitted(frames)[1..] == Emitted(frames[1..]);
      } else {
        assert Emitted(frames) == Emitted(frames[1..]);
      }
    }
  }

  /** Streaming refines the one-shot demultiplexer, however the stream is cut into chunks. */
  method StreamExec(chunks: seq<Bytes>) returns (emitted: seq<Frame>)
    ensures emitted == Emitted(Frames(Joined(chunks)))
    ensures Payload(emitted, {STDOUT, STDERR}) == Payload(Frames(Joined(chunks)), {STDOUT, STDERR})
  {
    var demux := new StreamDemux();
    for n := 0 to |chunks|
      invariant demux.Valid() && demux.received == Joined(chunks[..n]) && fresh(demux)
    {
      assert chunks[..n + 1] == chunks[..n] + [chunks[n]];
      JoinedSnoc(chunks[..n], chunks[n]);
      demux.OnData(chunks[n]);
    }
    assert chunks[..|chunks|] == chunks;
    EmittedPayload(Frames(Joined(chunks)));
    emitted := demux.emitted;
  }

  // ----- execCapture

  const STDERR_MAX := 64 * 1024

  function Min(a: nat, b: nat): nat {
    if a < b then a else b
  }

  function First(b: Bytes, n: nat): Bytes {
    b[..Min(n, |b|)]
  }

  /** The frames before the first stdout frame that does not fit in what is left of the room. */
  function BeforeCut(frames: seq<Frame>, room: nat): seq<Frame> {
    if frames == [] then []
    else if frames[0].kind != STDOUT then [frames[0]] + BeforeCut(frames[1..], room)
    else if |frames[0].payload| > room then []
    else [frames[0]] + BeforeCut(frames[1..], room - |frames[0].payload|)
  }

  lemma {:induction false} NothingCut(f: seq<Frame>, room: nat)
    requires |Payload(f, {STDOUT})| <= room
    ensures BeforeCut(f, room) == f
  {
    if f != [] {
      NothingCut(f[1..], if f[0].kind == STDOUT then room - |f[0].payload| else room);
    }
  }

  /** More frames matter only while stdout still has room. */
  lemma {:induction false} BeforeCutAppend(f: seq<Frame>, g: seq<Frame>, room: nat)
    ensures var used := |Payload(f, {STDOUT})|;
      BeforeCut(f + g, room) == BeforeCut(f, room) + (if used <= room then BeforeCut(g, room - used) else [])
  {
    if f == [] {
      assert f + g == g;
    } else {
      assert (f + g)[1..] == f[1..] + g;
      var size := if f[0].kind == STDOUT then |f[0].payload| else 0;
      if size <= room {
        BeforeCutAppend(f[1..], g, room - size);
      }
    }
  }

  lemma BeforeCutOne(f: Frame, g: seq<Frame>, room: nat)
    ensures var size := if f.kind == STDOUT then |f.payload| else 0;
      BeforeCut([f] + g, room) == if size > room then [] else [f] + BeforeCut(g, room - size)
  {
    assert ([f] + g)[1..] == g;
  }

  /** All the stderr a capture reads. */
  function StderrRead(frames: seq<Frame>, room: nat): Bytes {
    Payload(BeforeCut(frames, room), {STDERR})
  }

  /** The capture: stdout up to `maxBytes`, a bounded stderr, and whether stdout had more. */
  class Capture {
    const maxBytes: nat
    var pending: Bytes
    var out: Bytes
    var err: Bytes
    var truncated: bool
    ghost var received: Bytes

    ghost predicate Valid()
      reads this
    {
      Captured(received, pending, out, err, truncated, maxBytes)
    }

    constructor (maxBytes: nat)
      ensures Valid() && received == [] && this.maxBytes == maxBytes
    {
      this.maxBytes := maxBytes;
      pending, out, err, truncated, received := [], [], [], false, [];
    }

    method OnData(chunk: Bytes)
      requires Valid()
      modifies this
      ensures Valid() && received == old(received) + chunk
    {
      hide Frames, Rest, Size, Payload, BeforeCut, Captured, First;
      ghost var before := received;
      received := before + chunk;
      if truncated {
        StaysTruncated(before, chunk, pending, out, err, maxBytes);
        return;
      }
      CaptureSoFar(before, chunk, pending, out, err, maxBytes);
      ghost var total, joined := received, pending + chunk;
      pending := if |pending| == 0 then chunk else pending + chunk;
      var off: nat := 0;
      assert pending == joined && pending[0..] == joined;
      while off + 8 <= |pending|
        invariant off <= |pending| && !truncated && received == total
        invariant Progress(total, out, err, pending[off..], maxBytes)
        decreases |pending| - off
      {
        FrameAt(pending, off);
        var kind, size := pending[off], Size(pending, off + 4);
        if off + 8 + size > |pending| {
          break;
        }
        var payload := pending[off + 8..off + 8 + size];
        ghost var more := pending[off + 8 + size..];
        Consumes(total, out, err, pending[off..], Frame(kind, payload), more, maxBytes);
        off := off + 8 + size;
        if kind == STDOUT {
          var room := maxBytes - |out|;
          if |payload| > room {
            if room > 0 {
              out := out + payload[..room];
            } else {
              assert out + payload[..0] == out;
            }
            truncated := true;
            pending := [];
            return;
          }
          out := out + payload;
        } else if kind == STDERR && |err| < STDERR_MAX {
          err := err + First(payload, STDERR_MAX - |err|);
        }
      }
      if off + 8 > |pending| {
        NoFrameAt(pending, off);
      }
      pending := pending[off..];
      Complete(total, out, err, pending, maxBytes);
    }
  }

  /** What a capture holds of the bytes received so far. */
  ghost predicate Captured(received: Bytes, pending: Bytes, out: Bytes, err: Bytes, truncated: bool, max: nat) {
    var stdout := Payload(Frames(received), {STDOUT});
    && (truncated <==> |stdout| > max)
    && out == First(stdout, max)
    && err == First(StderrRead(Frames(received), max), STDERR_MAX)
    && (!truncated ==> pending == Rest(received))
  }

  /** In the loop: what was taken, and the bytes still to be looked at. */
  ghost predicate Progress(total: Bytes, out: Bytes, err: Bytes, left: Bytes, max: nat) {
    && |out| <= max && |err| <= STDERR_MAX
    && Payload(Frames(total), {STDOUT}) == out + Payload(Frames(left), {STDOUT})
    && Rest(total) == Rest(left)
    && err <= StderrRead(Frames(total), max)
    && (|err| < STDERR_MAX ==> StderrRead(Frames(total), max) == err + StderrRead(Frames(left), max - |out|))
  }

  lemma StaysTruncated(before: Bytes, chunk: Bytes, pending: Bytes, out: Bytes, err: Bytes, max: nat)
    requires Captured(before, pending, out, err, true, max)
    ensures Captured(before + chunk, pending, out, err, true, max)
  {
    FramesAppend(before, chunk);
    PayloadAppend(Frames(before), Frames(Rest(before) + chunk), {STDOUT});
    BeforeCutAppend(Frames(before), Frames(Rest(before) + chunk), max);
    assert BeforeCut(Frames(before + chunk), max) == BeforeCut(Frames(before), max);
  }

  lemma CaptureSoFar(before: Bytes, chunk: Bytes, pending: Bytes, out: Bytes, err: Bytes, max: nat)
    requires Captured(before, pending, out, err, false, max)
    ensures Progress(before + chunk, out, err, pending + chunk, max)
  {
    hide Frames, Rest, Payload, BeforeCut;
    FramesAppend(before, chunk);
    PayloadAppend(Frames(before), Frames(pending + chunk), {STDOUT});
    BeforeCutAppend(Frames(before), Frames(pending + chunk), max);
    NothingCut(Frames(before), max);
    PayloadAppend(BeforeCut(Frames(before), max), BeforeCut(Frames(pending + chunk), max - |out|), {STDERR});
  }

  /** One frame taken: what the capture then holds, or that it is full. */
  lemma Consumes(total: Bytes, out: Bytes, err: Bytes, left: Bytes, f: Frame, more: Bytes, max: nat)
    requires Progress(total, out, err, left, max)
    requires Frames(left) == [f] + Frames(more) && Rest(left) == Rest(more)
    ensures f.kind == STDOUT && |f.payload| > max - |out| ==>
      Captured(total, [], out + f.payload[..max - |out|], err, true, max)
    ensures f.kind == STDOUT && |f.payload| <= max - |out| ==> Progress(total, out + f.payload, err, more, max)
    ensures f.kind == STDERR && |err| < STDERR_MAX ==>
      Progress(total, out, err + First(f.payload, STDERR_MAX - |err|), more, max)
    ensures f.kind != STDOUT && !(f.kind == STDERR && |err| < STDERR_MAX) ==> Progress(total, out, err, more, max)
  {
    if f.kind != STDOUT {
      TakesOther(total, out, err, left, f, more, max);
    } else if |f.payload| > max - |out| {
      FillsUp(total, out, err, left, f, more, max);
    } else {
      TakesStdout(total, out, err, left, f, more, max);
    }
    hide Progress, Captured, First;
  }

  lemma FillsUp(total: Bytes, out: Bytes, err: Bytes, left: Bytes, f: Frame, more: Bytes, max: nat)
    requires Progress(total, out, err, left, max) && Frames(left) == [f] + Frames(more)
    requires f.kind == STDOUT && |f.payload| > max - |out|
    ensures Captured(total, [], out + f.payload[..max - |out|], err, true, max)
  {
    PayloadOne(f, Frames(more), {STDOUT});
    BeforeCutOne(f, Frames(more), max - |out|);
    EmptyPayload([], {STDERR});
    hide Frames, Rest, Payload, BeforeCut;
    assert First(Payload(Frames(total), {STDOUT}), max) == out + f.payload[..max - |out|];
    assert |err| < STDERR_MAX ==> StderrRead(Frames(total), max) == err + [];
  }

  lemma TakesStdout(total: Bytes, out: Bytes, err: Bytes, left: Bytes, f: Frame, more: Bytes, max: nat)
    requires Progress(total, out, err, left, max) && Frames(left) == [f] + Frames(more) && Rest(left) == Rest(more)
    requires f.kind == STDOUT && |f.payload| <= max - |out|
    ensures Progress(total, out + f.payload, err, more, max)
  {
    var room := max - |out| - |f.payload|;
    PayloadOne(f, Frames(more), {STDOUT});
    BeforeCutOne(f, Frames(more), max - |out|);
    PayloadOne(f, BeforeCut(Frames(more), room), {STDERR});
    hide Frames, Rest, Payload, BeforeCut;
    assert |err| < STDERR_MAX ==> err + StderrRead(Frames(left), max - |out|) == err + StderrRead(Frames(more), room);
  }

  lemma TakesOther(total: Bytes, out: Bytes, err: Bytes, left: Bytes, f: Frame, more: Bytes, max: nat)
    requires Progress(total, out, err, left, max) && Frames(left) == [f] + Frames(more) && Rest(left) == Rest(more)
    requires f.kind != STDOUT
    ensures f.kind == STDERR && |err| < STDERR_MAX ==>
      Progress(total, out, err + First(f.payload, STDERR_MAX - |err|), more, max)
    ensures !(f.kind == STDERR && |err| < STDERR_MAX) ==> Progress(total, out, err, more, max)
  {
    PayloadOne(f, Frames(more), {STDOUT});
    BeforeCutOne(f, Frames(more), max - |out|);
    PayloadOne(f, BeforeCut(Frames(more), max - |out|), {STDERR});
    hide Frames, Rest, Payload, BeforeCut;
    assert Payload(Frames(total), {STDOUT}) == out + Payload(Frames(more), {STDOUT});
    if |err| < STDERR_MAX {
      var whole := if f.kind == STDERR then err + f.payload else err;
      assert StderrRead(Frames(total), max) == whole + StderrRead(Frames(more), max - |out|);
      if f.kind == STDERR && |f.payload| <= STDERR_MAX - |err| {
        assert First(f.payload, STDERR_MAX - |err|) == f.payload;
      }
    }
  }

  lemma Complete(total: Bytes, out: Bytes, err: Bytes, left: Bytes, max: nat)
    requires Progress(total, out, err, left, max)
    requires Frames(left) == [] && Rest(left) == left
    ensures Captured(total, left, out, err, false, max)
  {
    EmptyPayload([], {STDOUT});
    EmptyPayload([], {STDERR});
    assert BeforeCut([], max - |out|) == [];
    hide Frames, Rest, Payload, BeforeCut;
    assert out + [] == out && err + [] == err;
  }

  /**
   For every chunking stdout is exactly its first `maxBytes`, `truncated` says whether there was more,
   and stderr is the first 64 KiB of what came before the frame at which stdout was cut.
   */
  method ExecCapture(chunks: seq<Bytes>, maxBytes: nat) returns (out: Bytes, err: Bytes, truncated: bool)
    ensures var frames := Frames(Joined(chunks));
      var stdout := Payload(frames, {STDOUT});
      && out == First(stdout, maxBytes)
      && (truncated <==> |stdout| > maxBytes)
      && err == First(Payload(if truncated then BeforeCut(frames, maxBytes) else frames, {STDERR}), STDERR_MAX)
  {
    var capture := new Capture(maxBytes);
    for n := 0 to |chunks|
      invariant capture.Valid() && capture.received == Joined(chunks[..n]) && fresh(capture)
    {
      assert chunks[..n + 1] == chunks[..n] + [chunks[n]];
      JoinedSnoc(chunks[..n], chunks[n]);
      capture.OnData(chunks[n]);
    }
    assert chunks[..|chunks|] == chunks;
    out, err, truncated := capture.out, capture.err, capture.truncated;
    if !truncated {
      NothingCut(Frames(Joined(chunks)), maxBytes);
    }
  }
}
