/**
 The bounded logs of backend/src/bootstrap.ts: the broadcaster's replay buffer and the log kept for the
 database, each trimmed from the front as chunks arrive.

 A chunk is a string of UTF-16 code units; its size is that of its UTF-8 encoding, as Buffer.byteLength counts it.
 */
module BoundedTail {
  import opened Wrappers
  import L = LifecycleLock

  type SessionId = L.SessionId

  newtype CodeUnit = u: int | 0 <= u < 0x1_0000

  type Chunk = seq<CodeUnit>

  const MAX_BUFFER_BYTES: nat := 256 * 1024
  const BOOTSTRAP_LOG_MAX_BYTES: nat := 64 * 1024

  predicate IsHigh(u: CodeUnit) { 0xD800 <= u < 0xDC00 }
  predicate IsLow(u: CodeUnit) { 0xDC00 <= u < 0xE000 }

  /** A surrogate pair takes four bytes; a lone surrogate is written as U+FFFD, which takes three. */
  function ByteLength(s: Chunk): nat {
    if s == [] then 0
    else if s[0] < 0x80 then 1 + ByteLength(s[1..])
    else if s[0] < 0x800 then 2 + ByteLength(s[1..])
    else if |s| >= 2 && IsHigh(s[0]) && IsLow(s[1]) then 4 + ByteLength(s[2..])
    else 3 + ByteLength(s[1..])
  }

  /** The code points of the text: surrogate pairs joined, and U+FFFD for a surrogate that stands alone. */
  function CodePoints(s: Chunk): seq<nat> {
    if s == [] then []
    else if |s| >= 2 && IsHigh(s[0]) && IsLow(s[1]) then
      [0x10000 + (s[0] as nat - 0xD800) * 0x400 + (s[1] as nat - 0xDC00)] + CodePoints(s[2..])
    else [if 0xD800 <= s[0] < 0xE000 then 0xFFFD else s[0] as nat] + CodePoints(s[1..])
  }

  /** The bytes of a code point in UTF-8. */
  function Encoded(p: nat): seq<nat> {
    if p < 0x80 then [p]
    else if p < 0x800 then [0xC0 + p / 0x40, 0x80 + p % 0x40]
    else if p < 0x10000 then [0xE0 + p / 0x1000, 0x80 + p / 0x40 % 0x40, 0x80 + p % 0x40]
    else [0xF0 + p / 0x40000, 0x80 + p / 0x1000 % 0x40, 0x80 + p / 0x40 % 0x40, 0x80 + p % 0x40]
  }

  function Utf8(points: seq<nat>): seq<nat> {
    if points == [] then [] else Encoded(points[0]) + Utf8(points[1..])
  }

  /** The size counted is the length of the encoding. */
  lemma {:induction false} ByteLengthIsUtf8(s: Chunk)
    ensures ByteLength(s) == |Utf8(CodePoints(s))|
    decreases |s|
  {
    if s != [] {
      if |s| >= 2 && IsHigh(s[0]) && IsLow(s[1]) {
        ByteLengthIsUtf8(s[2..]);
        assert CodePoints(s)[1..] == CodePoints(s[2..]);
      } else {
        ByteLengthIsUtf8(s[1..]);
        assert CodePoints(s)[1..] == CodePoints(s[1..]);
      }
    }
  }

  function Total(chunks: seq<Chunk>): nat {
    if chunks == [] then 0 else ByteLength(chunks[0]) + Total(chunks[1..])
  }

  function Text(chunks: seq<Chunk>): Chunk {
    if chunks == [] then [] else chunks[0] + Text(chunks[1..])
  }

  lemma {:induction false} TotalSnoc(chunks: seq<Chunk>, c: Chunk)
    ensures Total(chunks + [c]) == Total(chunks) + ByteLength(c)
  {
    if chunks != [] {
      assert (chunks + [c])[1..] == chunks[1..] + [c];
      TotalSnoc(chunks[1..], c);
    }
  }

  /** The total is the sum of the sizes, and the text all chunks in order. */
  lemma {:induction false} TextAppend(a: seq<Chunk>, c: Chunk)
    ensures Text(a + [c]) == Text(a) + c && Total(a + [c]) == Total(a) + |Utf8(CodePoints(c))|
    ensures Text([]) == [] && Total([]) == 0
  {
    hide ByteLength;
    ByteLengthIsUtf8(c);
    if a != [] {
      assert (a + [c])[1..] == a[1..] + [c];
      TextAppend(a[1..], c);
    }
  }

  // ----- What a bounded log holds

  /**
   The chunks from `k` on are the longest end of the log that fits the cap; the last chunk is kept even if it
   alone does not.
   */
  ghost predicate KeepsFrom(all: seq<Chunk>, k: nat, cap: nat) {
    && k <= |all| && (k == |all| ==> all == [])
    && (Total(all[k..]) <= cap || k + 1 == |all|)
    && forall j :: 0 <= j < k ==> Total(all[j..]) > cap
  }

  ghost predicate IsTail(all: seq<Chunk>, kept: seq<Chunk>, cap: nat) {
    exists k: nat :: KeepsFrom(all, k, cap) && kept == all[k..]
  }

  /** That determines what is kept. */
  lemma TailIsUnique(all: seq<Chunk>, a: seq<Chunk>, b: seq<Chunk>, cap: nat)
    requires IsTail(all, a, cap) && IsTail(all, b, cap)
    ensures a == b
  {
    hide ByteLength, Total;
    var j: nat :| KeepsFrom(all, j, cap) && a == all[j..];
    var k: nat :| KeepsFrom(all, k, cap) && b == all[k..];
    assert !(j < k) && !(k < j);
  }

  /** No longer end of the log fits. */
  lemma TailIsLongest(all: seq<Chunk>, kept: seq<Chunk>, cap: nat, j: nat)
    requires IsTail(all, kept, cap) && j <= |all| && Total(all[j..]) <= cap
    ensures |all[j..]| <= |kept|
  {
    hide ByteLength, Total;
    var k: nat :| KeepsFrom(all, k, cap) && kept == all[k..];
  }

  /** Encoding chunks one by one never takes fewer bytes than encoding them joined, where surrogates may pair up. */
  lemma {:induction false} JoinedIsNoLonger(a: Chunk, b: Chunk)
    ensures ByteLength(a + b) <= ByteLength(a) + ByteLength(b)
    decreases |a|
  {
    if a == [] {
      assert a + b == b;
    } else {
      assert (a + b)[1..] == a[1..] + b;
      JoinedIsNoLonger(a[1..], b);
      if |a| >= 2 {
        assert (a + b)[2..] == a[2..] + b;
        JoinedIsNoLonger(a[2..], b);
      } else if b != [] && IsHigh(a[0]) && IsLow(b[0]) {
        assert (a + b)[2..] == b[1..];
        assert ByteLength(b) == 3 + ByteLength(b[1..]);
        assert a[1..] == [];
      }
    }
  }

  lemma {:induction false} TextFits(chunks: seq<Chunk>)
    ensures ByteLength(Text(chunks)) <= Total(chunks)
  {
    if chunks != [] {
      TextFits(chunks[1..]);
      JoinedIsNoLonger(chunks[0], Text(chunks[1..]));
    }
  }

  /** The stored log is within the cap unless its one chunk alone exceeds it. */
  lemma StoredLogFits(all: seq<Chunk>, kept: seq<Chunk>, cap: nat)
    requires IsTail(all, kept, cap)
    ensures ByteLength(Text(kept)) <= cap || (all != [] && kept == [all[|all| - 1]])
  {
    TextFits(kept);
    hide ByteLength, Total, Text;
    var k: nat :| KeepsFrom(all, k, cap) && kept == all[k..];
  }

  // ----- The trim loop

  lemma Pushed(all: seq<Chunk>, k: nat, cap: nat, c: Chunk)
    requires KeepsFrom(all, k, cap)
    ensures (all + [c])[k..] == all[k..] + [c]
    ensures Total((all + [c])[k..]) == Total(all[k..]) + ByteLength(c)
    ensures forall j :: 0 <= j < k ==> Total((all + [c])[j..]) > cap
  {
    forall j | 0 <= j <= k ensures Total((all + [c])[j..]) == Total(all[j..]) + ByteLength(c) {
      assert (all + [c])[j..] == all[j..] + [c];
      TotalSnoc(all[j..], c);
    }
  }

  lemma Shifted(log: seq<Chunk>, k: nat)
    requires k < |log|
    ensures log[k..][1..] == log[k + 1..]
    ensures Total(log[k..]) == ByteLength(log[k]) + Total(log[k + 1..])
  {
    hide ByteLength;
  }

  /** Push a chunk, then shift chunks off the front while the log is over the cap and more than one is left. */
  method Append(kept: seq<Chunk>, bytes: nat, c: Chunk, cap: nat, ghost all: seq<Chunk>)
    returns (newKept: seq<Chunk>, newBytes: nat)
    requires IsTail(all, kept, cap) && bytes == Total(kept)
    ensures IsTail(all + [c], newKept, cap) && newBytes == Total(newKept)
  {
    hide ByteLength, Total;
    ghost var k: nat :| KeepsFrom(all, k, cap) && kept == all[k..];
    Pushed(all, k, cap, c);
    ghost var log := all + [c];
    newKept, newBytes := kept + [c], bytes + ByteLength(c);
    while newBytes > cap && |newKept| > 1
      invariant k < |log| && newKept == log[k..] && newBytes == Total(newKept)
      invariant forall j :: 0 <= j < k ==> Total(log[j..]) > cap
      decreases |newKept|
    {
      var head := newKept[0];
      Shifted(log, k);
      newKept, newBytes := newKept[1..], newBytes - ByteLength(head);
      k := k + 1;
    }
    assert KeepsFrom(log, k, cap);
  }

  // ----- The broadcaster

  type ListenerId = nat

  datatype Message = Output(data: Chunk) | Done | Fail(exitCode: int)

  datatype SessionState = SessionState(listeners: set<ListenerId>, buffered: seq<Chunk>, bytes: nat, terminal: Option<Message>)

  const EMPTY := SessionState({}, [], 0, None)

  /** The state of a session and the chunks accepted for it so far. */
  ghost predicate Buffers(s: SessionState, accepted: seq<Chunk>) {
    IsTail(accepted, s.buffered, MAX_BUFFER_BYTES) && s.bytes == Total(s.buffered)
  }

  lemma EmptyBuffers()
    ensures Buffers(EMPTY, [])
  {
    assert KeepsFrom([], 0, MAX_BUFFER_BYTES) && EMPTY.buffered == [][0..];
  }

  /** Every listener heard those messages, in that order. */
  function Hear(heard: map<ListenerId, seq<Message>>, listeners: set<ListenerId>, m: Message): map<ListenerId, seq<Message>> {
    map l | l in heard :: if l in listeners then heard[l] + [m] else heard[l]
  }

  lemma HearIs(heard: map<ListenerId, seq<Message>>, listeners: set<ListenerId>, m: Message, l: ListenerId)
    requires l in heard
    ensures Hear(heard, listeners, m).Keys == heard.Keys
    ensures l in listeners ==> Hear(heard, listeners, m)[l] == heard[l] + [m]
    ensures l !in listeners ==> Hear(heard, listeners, m)[l] == heard[l]
  {
  }

  ghost predicate StatesOk(states: map<SessionId, SessionState>, accepted: map<SessionId, seq<Chunk>>, heard: set<ListenerId>) {
    && states.Keys == accepted.Keys
    && forall sid :: sid in states ==> Buffers(states[sid], accepted[sid]) && states[sid].listeners <= heard
  }

  lemma StateOf(states: map<SessionId, SessionState>, accepted: map<SessionId, seq<Chunk>>, heard: set<ListenerId>, sid: SessionId)
    requires StatesOk(states, accepted, heard) && sid in states
    ensures sid in accepted && Buffers(states[sid], accepted[sid]) && states[sid].listeners <= heard
  {
  }

  lemma StateUpdated(states: map<SessionId, SessionState>, accepted: map<SessionId, seq<Chunk>>, heard: set<ListenerId>,
                     sid: SessionId, s: SessionState, log: seq<Chunk>)
    requires StatesOk(states, accepted, heard) && Buffers(s, log) && s.listeners <= heard
    ensures StatesOk(states[sid := s], accepted[sid := log], heard)
  {
    hide Buffers;
  }

  class BootstrapBroadcaster {
    var states: map<SessionId, SessionState>
    /** What each listener was sent live. */
    var heard: map<ListenerId, seq<Message>>
    /** The chunks accepted for each session. */
    ghost var accepted: map<SessionId, seq<Chunk>>

    ghost predicate Valid()
      reads this
    {
      StatesOk(states, accepted, heard.Keys)
    }

    constructor ()
      ensures Valid() && states == map[] && heard == map[]
    {
      states, heard, accepted := map[], map[], map[];
    }

    method Ensure(sid: SessionId) returns (s: SessionState)
      requires Valid()
      modifies this`states, this`accepted
      ensures Valid() && sid in states && sid in accepted && s == states[sid]
      ensures s == (if sid in old(states) then old(states)[sid] else EMPTY)
      ensures states == old(states)[sid := s]
      ensures accepted == old(accepted)[sid := if sid in old(accepted) then old(accepted)[sid] else []]
    {
      if sid !in states {
        EmptyBuffers();
        StateUpdated(states, accepted, heard.Keys, sid, EMPTY, []);
        states := states[sid := EMPTY];
        accepted := accepted[sid := []];
      }
      s := states[sid];
    }

    method FanOut(listeners: set<ListenerId>, m: Message)
      requires listeners <= heard.Keys
      modifies this`heard
      ensures heard == Hear(old(heard), listeners, m) && heard.Keys == old(heard.Keys)
    {
      var left := listeners;
      while left != {}
        invariant left <= listeners
        invariant heard == Hear(old(heard), listeners - left, m)
        decreases left
      {
        var l :| l in left;
        heard := heard[l := heard[l] + [m]];
        left := left - {l};
      }
    }

    /**
     A chunk for a session that has not finished joins its log, whose longest fitting end is buffered, and goes to
     every listener; after the terminal message it changes nothing.
     */
    method Broadcast(sid: SessionId, data: Chunk)
      requires Valid()
      modifies this
      ensures Valid() && sid in states && sid in accepted
      ensures states[sid].listeners == (if sid in old(states) then old(states)[sid].listeners else {})
      ensures states[sid].terminal == (if sid in old(states) then old(states)[sid].terminal else None)
      ensures IsTail(accepted[sid], states[sid].buffered, 262_144)
      ensures forall x :: x != sid ==> (x in states <==> x in old(states)) && (x in states ==> states[x] == old(states)[x])
      ensures sid in old(states) && old(states)[sid].terminal.Some? ==> states[sid] == old(states)[sid] && heard == old(heard)
      ensures !(sid in old(states) && old(states)[sid].terminal.Some?) ==>
        && accepted[sid] == (if sid in old(accepted) then old(accepted)[sid] else []) + [data]
        && heard == Hear(old(heard), states[sid].listeners, Output(data))
    {
      hide IsTail, StatesOk, Total;
      var s := Ensure(sid);
      StateOf(states, accepted, heard.Keys, sid);
      if s.terminal.Some? {
        return;
      }
      var kept, bytes := Append(s.buffered, s.bytes, data, MAX_BUFFER_BYTES, accepted[sid]);
      StateUpdated(states, accepted, heard.Keys, sid, s.(buffered := kept, bytes := bytes), accepted[sid] + [data]);
      accepted := accepted[sid := accepted[sid] + [data]];
      states := states[sid := s.(buffered := kept, bytes := bytes)];
      FanOut(s.listeners, Output(data));
    }

    /** The first terminal message is the only one, and every listener gets it. */
    method Finish(sid: SessionId, m: Message)
      requires Valid() && !m.Output?
      modifies this
      ensures Valid() && sid in states && states[sid].terminal.Some?
      ensures sid in old(states) && old(states)[sid].terminal.Some? ==> states == old(states) && heard == old(heard)
      ensures !(sid in old(states) && old(states)[sid].terminal.Some?) ==>
        states[sid].terminal == Some(m) && heard == Hear(old(heard), states[sid].listeners, m)
      ensures states[sid] == (if sid in old(states) then old(states)[sid] else EMPTY).(terminal := states[sid].terminal)
      ensures forall x :: x != sid ==> (x in states <==> x in old(states)) && (x in states ==> states[x] == old(states)[x])
    {
      hide IsTail, StatesOk, Total;
      var s := Ensure(sid);
      if s.terminal.Some? {
        return;
      }
      StateOf(states, accepted, heard.Keys, sid);
      StateUpdated(states, accepted, heard.Keys, sid, s.(terminal := Some(m)), accepted[sid]);
      assert accepted[sid := accepted[sid]] == accepted;
      states := states[sid := s.(terminal := Some(m))];
      FanOut(s.listeners, m);
    }

    /** A listener joins; what it missed is replayed in a microtask of its own. */
    method Subscribe(sid: SessionId, l: ListenerId)
      requires Valid() && l !in heard
      modifies this
      ensures Valid() && heard == old(heard)[l := []] && sid in states && l in states[sid].listeners
      ensures sid in old(states) ==> states[sid] == old(states)[sid].(listeners := old(states)[sid].listeners + {l})
    {
      hide IsTail, StatesOk, Total;
      var s := Ensure(sid);
      StateOf(states, accepted, heard.Keys, sid);
      MoreListeners(states, accepted, heard.Keys, l);
      StateUpdated(states, accepted, heard.Keys + {l}, sid, s.(listeners := s.listeners + {l}), accepted[sid]);
      assert accepted[sid := accepted[sid]] == accepted;
      heard := heard[l := []];
      assert heard.Keys == old(heard.Keys) + {l};
      states := states[sid := s.(listeners := s.listeners + {l})];
    }

    /** The microtask: the buffer as it is by then, oldest chunk first, and the terminal message if there is one. */
    method Replay(sid: SessionId, l: ListenerId)
      requires Valid() && sid in states && l in heard
      modifies this`heard
      ensures Valid()
      ensures heard == old(heard)[l := old(heard)[l] + Replayed(states[sid])]
    {
      hide IsTail, StatesOk, Total;
      var s := states[sid];
      assert s.buffered[..0] == [] && Outputs([]) == [];
      for k := 0 to |s.buffered|
        invariant l in heard && heard == old(heard)[l := heard[l]]
        invariant heard[l] == old(heard)[l] + Outputs(s.buffered[..k])
      {
        OutputsSnoc(s.buffered[..k], s.buffered[k]);
        assert s.buffered[..k + 1] == s.buffered[..k] + [s.buffered[k]];
        heard := heard[l := heard[l] + [Output(s.buffered[k])]];
      }
      assert s.buffered[..|s.buffered|] == s.buffered;
      if s.terminal.Some? {
        heard := heard[l := heard[l] + [s.terminal.value]];
      }
      assert heard[l] == old(heard)[l] + Replayed(s);
      assert heard.Keys == old(heard.Keys);
    }
  }

  function Outputs(chunks: seq<Chunk>): seq<Message> {
    seq(|chunks|, k requires 0 <= k < |chunks| => Output(chunks[k]))
  }

  lemma OutputsSnoc(chunks: seq<Chunk>, c: Chunk)
    ensures Outputs(chunks + [c]) == Outputs(chunks) + [Output(c)]
  {
  }

  function Replayed(s: SessionState): seq<Message> {
    Outputs(s.buffered) + match s.terminal case None => [] case Some(m) => [m]
  }

  /** The replay is one message a buffered chunk, in order, and then the terminal message if there is one. */
  lemma ReplayedIs(s: SessionState, k: nat)
    ensures |Replayed(s)| == |s.buffered| + if s.terminal.Some? then 1 else 0
    ensures k < |s.buffered| ==> Replayed(s)[k] == Output(s.buffered[k])
    ensures s.terminal.Some? ==> Replayed(s)[|s.buffered|] == s.terminal.value
  {
  }

  lemma MoreListeners(states: map<SessionId, SessionState>, accepted: map<SessionId, seq<Chunk>>, heard: set<ListenerId>, l: ListenerId)
    requires StatesOk(states, accepted, heard)
    ensures StatesOk(states, accepted, heard + {l})
  {
    hide Buffers;
  }

  lemma TextEnds(chunks: seq<Chunk>)
    ensures Text(chunks) == [] + Text(chunks[0..])
    ensures forall text: Chunk :: text + Text(chunks[|chunks|..]) == text
  {
  }

  lemma TextTurn(text: Chunk, chunks: seq<Chunk>, k: nat)
    requires k < |chunks|
    ensures text + Text(chunks[k..]) == (text + chunks[k]) + Text(chunks[k + 1..])
  {
    assert chunks[k..][1..] == chunks[k + 1..];
  }

  /** The log of a run: every chunk goes through onOutput, and what is stored is the joined tail. */
  class BootstrapLog {
    var chunks: seq<Chunk>
    var bytes: nat
    ghost var all: seq<Chunk>

    ghost predicate Valid()
      reads this
    {
      IsTail(all, chunks, BOOTSTRAP_LOG_MAX_BYTES) && bytes == Total(chunks)
    }

    constructor ()
      ensures Valid() && all == []
    {
      chunks, bytes, all := [], 0, [];
      new;
      assert KeepsFrom([], 0, BOOTSTRAP_LOG_MAX_BYTES) && chunks == [][0..];
    }

    method OnOutput(chunk: Chunk)
      requires Valid()
      modifies this
      ensures Valid() && all == old(all) + [chunk]
    {
      chunks, bytes := Append(chunks, bytes, chunk, BOOTSTRAP_LOG_MAX_BYTES, all);
      all := all + [chunk];
    }

    method Persisted() returns (text: Chunk)
      requires Valid()
      ensures text == Text(chunks)
      ensures IsTail(all, chunks, 65_536)
      ensures |Utf8(CodePoints(text))| <= 65_536 || (all != [] && chunks == [all[|all| - 1]])
    {
      hide ByteLength, Total, IsTail, Text, CodePoints, Utf8;
      StoredLogFits(all, chunks, BOOTSTRAP_LOG_MAX_BYTES);
      text := [];
      TextEnds(chunks);
      for k := 0 to |chunks|
        invariant Text(chunks) == text + Text(chunks[k..])
      {
        TextTurn(text, chunks, k);
        text := text + chunks[k];
      }
      ByteLengthIsUtf8(text);
    }
  }
}
