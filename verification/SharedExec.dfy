/**
 The shared terminal exec of one tab (attach, detach, resize, recomputeSize and the fan-out of
 backend/src/dockerManager.ts). Tabs have separate slots and share nothing else, so one tab is modelled.

 Every `await` ends a step: an attach waits for the spawn promise, then for the captured pane; a detach
 is finished by a continuation of the promise it found. Any other step may run in between.
 */
module SharedExec {
  import opened Wrappers

  type AttachId = nat
  /** Execs are numbered in the order they were spawned. */
  type ExecId = nat

  datatype Size = Size(cols: int, rows: int)

  datatype Promise = Spawning | Ready | Rejected

  /** `log` is everything the exec's stream has broadcast; `torn` says a detach destroyed the stream. */
  datatype Exec = Exec(promise: Promise, torn: bool, listeners: set<AttachId>, sizes: map<AttachId, Size>,
                       applied: Size, log: seq<string>)

  const NEW_EXEC := Exec(Spawning, false, {}, map[], Size(0, 0), [])

  /** `tried` lists the execs an attach has acquired; `size` is None for an observer. */
  datatype Client =
    | Awaiting(tried: seq<ExecId>, size: Option<Size>)
    | Capturing(tried: seq<ExecId>, size: Option<Size>)
    | Attached(tried: seq<ExecId>, since: nat, replay: seq<string>, armed: bool, tail: seq<string>, received: seq<string>)
    | GaveUp(tried: seq<ExecId>)
    | SpawnFailed

  const MAX_TRIES := 3

  datatype Detach = Detach(client: AttachId, exec: ExecId)

  /** The slot of the tab, the execs, the attaches, the routes (`keyOf`) and the detach continuations under way. */
  datatype State = State(slot: Option<ExecId>, execs: seq<Exec>, clients: map<AttachId, Client>,
                         routed: set<AttachId>, detaching: set<Detach>)

  const INITIAL := State(None, [], map[], {}, {})

  // ----- The pane size

  /** The size is the smallest of the sizes, each side on its own. */
  ghost predicate Fits(size: Size, sizes: map<AttachId, Size>) {
    && (forall a :: a in sizes ==> size.cols <= sizes[a].cols && size.rows <= sizes[a].rows)
    && (exists a :: a in sizes && size.cols == sizes[a].cols)
    && (exists a :: a in sizes && size.rows == sizes[a].rows)
  }

  lemma FitsIsUnique(s: Size, t: Size, sizes: map<AttachId, Size>)
    requires Fits(s, sizes) && Fits(t, sizes)
    ensures s == t
  {
  }

  ghost predicate SizeOk(x: Exec) {
    x.sizes.Keys <= x.listeners && (x.sizes != map[] ==> Fits(x.applied, x.sizes))
  }

  /** recomputeSize: nothing to do without clients; otherwise the smallest size is applied. */
  method RecomputeSize(x: Exec) returns (y: Exec)
    ensures y == x.(applied := y.applied)
    ensures if x.sizes == map[] then y == x else Fits(y.applied, x.sizes)
  {
    if |x.sizes| == 0 {
      return x;
    }
    var left := x.sizes.Keys;
    var first :| first in left;
    var min := x.sizes[first];
    left := left - {first};
    while left != {}
      invariant left <= x.sizes.Keys && first in x.sizes.Keys - left
      invariant forall a :: a in x.sizes.Keys - left ==> min.cols <= x.sizes[a].cols && min.rows <= x.sizes[a].rows
      invariant exists a :: a in x.sizes && min.cols == x.sizes[a].cols
      invariant exists a :: a in x.sizes && min.rows == x.sizes[a].rows
      decreases left
    {
      var a :| a in left;
      var size := x.sizes[a];
      if size.cols < min.cols { min := min.(cols := size.cols); }
      if size.rows < min.rows { min := min.(rows := size.rows); }
      left := left - {a};
    }
    y := if min == x.applied then x else x.(applied := min);
  }

  lemma {:induction false} SmallestExists(sizes: map<AttachId, Size>)
    requires sizes != map[]
    ensures exists m :: Fits(m, sizes)
    decreases |sizes|
  {
    var a :| a in sizes;
    var rest := map b | b in sizes && b != a :: sizes[b];
    if rest == map[] {
      assert forall b :: b in sizes ==> b == a by {
        assert forall b :: b in sizes && b != a ==> b in rest;
      }
      assert Fits(sizes[a], sizes);
    } else {
      assert rest.Keys == sizes.Keys - {a};
      SmallestExists(rest);
      var m :| Fits(m, rest);
      var c :| c in rest && m.cols == rest[c].cols;
      var r :| r in rest && m.rows == rest[r].rows;
      var x := sizes[a];
      var least := Size(if x.cols < m.cols then x.cols else m.cols, if x.rows < m.rows then x.rows else m.rows);
      assert forall b :: b in sizes ==> b == a || b in rest;
      assert least.cols == sizes[if x.cols < m.cols then a else c].cols;
      assert least.rows == sizes[if x.rows < m.rows then a else r].rows;
      assert Fits(least, sizes);
    }
  }

  ghost function Smallest(sizes: map<AttachId, Size>): (m: Size)
    requires sizes != map[]
    ensures Fits(m, sizes)
  {
    SmallestExists(sizes);
    var m :| Fits(m, sizes);
    m
  }

  ghost function Recomputed(x: Exec): Exec {
    if x.sizes == map[] then x else x.(applied := Smallest(x.sizes))
  }

  // ----- The steps

  function AcquireFrom(s: State, a: AttachId, tried: seq<ExecId>, size: Option<Size>): State {
    match s.slot
    case Some(e) => s.(clients := s.clients[a := Awaiting(tried + [e], size)])
    case None =>
      var e := |s.execs|;
      s.(slot := Some(e), execs := s.execs + [NEW_EXEC], clients := s.clients[a := Awaiting(tried + [e], size)])
  }

  function Last(tried: seq<ExecId>): ExecId
    requires tried != []
  {
    tried[|tried| - 1]
  }

  /** The awaited spawn promise has settled. */
  function Resume(s: State, a: AttachId): State
    requires a in s.clients && s.clients[a].Awaiting? && s.clients[a].tried != [] && Last(s.clients[a].tried) < |s.execs|
  {
    var c := s.clients[a];
    s.(clients := s.clients[a := if s.execs[Last(c.tried)].promise.Ready? then Capturing(c.tried, c.size) else SpawnFailed])
  }

  /** The pane was captured: the slot is checked again, and the listener registered or the exec acquired anew. */
  ghost function Register(s: State, a: AttachId, replay: seq<string>): State
    requires a in s.clients && s.clients[a].Capturing? && s.clients[a].tried != [] && Last(s.clients[a].tried) < |s.execs|
  {
    var c := s.clients[a];
    var e := Last(c.tried);
    if s.slot != Some(e) then
      if |c.tried| >= MAX_TRIES then s.(clients := s.clients[a := GaveUp(c.tried)]) else AcquireFrom(s, a, c.tried, c.size)
    else
      s.(execs := s.execs[e := Recomputed(Listening(s.execs[e], a, c.size))],
         clients := s.clients[a := Attached(c.tried, |s.execs[e].log|, replay, true, [], [])],
         routed := s.routed + {a})
  }

  function Listening(x: Exec, a: AttachId, size: Option<Size>): Exec {
    x.(listeners := x.listeners + {a}, sizes := if size.Some? then x.sizes[a := size.value] else x.sizes)
  }

  /** What one listener does with a chunk: it is kept until the replay was sent, then passed on. */
  function Hear(c: Client, chunk: string): Client {
    if !c.Attached? then c
    else if c.armed then c.(tail := c.tail + [chunk])
    else c.(received := c.received + [chunk])
  }

  function Broadcast(s: State, e: ExecId, chunk: string): State
    requires e < |s.execs|
  {
    if chunk == "" then s
    else s.(execs := s.execs[e := s.execs[e].(log := s.execs[e].log + [chunk])],
            clients := map a | a in s.clients ::
              if a in s.execs[e].listeners then Hear(s.clients[a], chunk) else s.clients[a])
  }

  /** The caller sent the replay, and drains the tail behind it. */
  function Flush(s: State, a: AttachId): State
    requires a in s.clients && s.clients[a].Attached? && s.clients[a].armed
  {
    var c := s.clients[a];
    s.(clients := s.clients[a := c.(armed := false, received := c.received + c.replay + c.tail, tail := [])])
  }

  /** The part of a resize that follows its wait for the exec. */
  ghost function Resize(s: State, a: AttachId, e: ExecId, size: Size): State
    requires e < |s.execs|
  {
    var x := s.execs[e];
    if a !in x.sizes then s else s.(execs := s.execs[e := Recomputed(x.(sizes := x.sizes[a := size]))])
  }

  function StartDetach(s: State, a: AttachId): State {
    if a !in s.routed then s
    else if s.slot.None? then s.(routed := s.routed - {a})
    else s.(routed := s.routed - {a}, detaching := s.detaching + {Detach(a, s.slot.value)})
  }

  function Leaving(x: Exec, a: AttachId): Exec {
    x.(listeners := x.listeners - {a}, sizes := x.sizes - {a})
  }

  function Vacated(slot: Option<ExecId>, e: ExecId): Option<ExecId> {
    if slot == Some(e) then None else slot
  }

  /** The continuation of a detach: the last listener to leave takes the exec down. */
  ghost function FinishDetach(s: State, d: Detach): State
    requires d.exec < |s.execs|
  {
    var done := s.(detaching := s.detaching - {d});
    var x := s.execs[d.exec];
    if !x.promise.Ready? then done
    else if x.listeners - {d.client} == {} then
      done.(slot := Vacated(s.slot, d.exec), execs := s.execs[d.exec := Leaving(x, d.client).(torn := true)])
    else
      done.(execs := s.execs[d.exec := Recomputed(Leaving(x, d.client))])
  }

  // ----- Runs

  /**
   ClearFailed is the slot cleanup of a rejected spawn; SlotDropped is the slot deleted because a stream
   ended, and KilledContainer the slot and the routes deleted with the container. Those two may happen at
   any time, whatever exec the slot then holds.
   */
  datatype Event =
    | Attaching(a: AttachId, viewport: Option<Size>)
    | Spawned(e: ExecId, ok: bool)
    | ClearFailed(e: ExecId)
    | Resuming(a: AttachId)
    | Captured(a: AttachId, replay: Option<string>)
    | Data(e: ExecId, chunk: string)
    | Flushing(a: AttachId)
    | Resizing(a: AttachId, e: ExecId, size: Size)
    | Detaching(a: AttachId)
    | Detached(d: Detach)
    | SlotDropped
    | KilledContainer

  /** Attach ids are fresh. A stream a detach destroyed delivers nothing; a promise settles once. */
  ghost predicate Enabled(s: State, ev: Event) {
    match ev
    case Attaching(a, _) => a !in s.clients
    case Spawned(e, _) => e < |s.execs| && s.execs[e].promise.Spawning?
    case ClearFailed(e) => e < |s.execs| && s.execs[e].promise.Rejected?
    case Resuming(a) =>
      && a in s.clients && s.clients[a].Awaiting? && s.clients[a].tried != [] && Last(s.clients[a].tried) < |s.execs|
      && !s.execs[Last(s.clients[a].tried)].promise.Spawning?
    case Captured(a, _) =>
      a in s.clients && s.clients[a].Capturing? && s.clients[a].tried != [] && Last(s.clients[a].tried) < |s.execs|
    case Data(e, _) => e < |s.execs| && s.execs[e].promise.Ready? && !s.execs[e].torn
    case Flushing(a) => a in s.clients && s.clients[a].Attached? && s.clients[a].armed
    case Resizing(_, e, _) => e < |s.execs| && s.execs[e].promise.Ready?
    case Detaching(_) => true
    case Detached(d) => d in s.detaching && d.exec < |s.execs| && !s.execs[d.exec].promise.Spawning?
    case SlotDropped => true
    case KilledContainer => true
  }

  function Screen(replay: Option<string>): seq<string> {
    match replay case Some(r) => [r] case None => []
  }

  ghost function Step(s: State, ev: Event): State
    requires Enabled(s, ev)
  {
    match ev
    case Attaching(a, size) => AcquireFrom(s, a, [], size)
    case Spawned(e, ok) => s.(execs := s.execs[e := s.execs[e].(promise := if ok then Ready else Rejected)])
    case ClearFailed(e) => s.(slot := Vacated(s.slot, e))
    case Resuming(a) => Resume(s, a)
    case Captured(a, replay) => Register(s, a, Screen(replay))
    case Data(e, chunk) => Broadcast(s, e, chunk)
    case Flushing(a) => Flush(s, a)
    case Resizing(a, e, size) => Resize(s, a, e, size)
    case Detaching(a) => StartDetach(s, a)
    case Detached(d) => FinishDetach(s, d)
    case SlotDropped => s.(slot := None)
    case KilledContainer => s.(slot := None, routed := {})
  }

  ghost predicate IsRun(run: seq<State>, events: seq<Event>) {
    && |run| == |events| + 1
    && run[0] == INITIAL
    && forall i :: 0 <= i < |events| ==> Enabled(run[i], events[i]) && run[i + 1] == Step(run[i], events[i])
  }

  // ----- The invariant

  /** The slot only ever holds the newest exec. */
  ghost predicate SlotOk(s: State) {
    s.slot.Some? ==> s.slot.value + 1 == |s.execs|
  }

  ghost predicate ExecOk(s: State, e: ExecId)
    requires e < |s.execs|
  {
    var x := s.execs[e];
    && (x.torn ==> x.listeners == {} && s.slot != Some(e))
    && (x.listeners != {} ==> x.promise.Ready?)
    && SizeOk(x)
    && forall a :: a in x.listeners ==> a in s.clients && s.clients[a].Attached? && ListensTo(s.clients[a], e)
  }

  predicate ListensTo(c: Client, e: ExecId)
    requires c.Attached?
  {
    c.tried != [] && Last(c.tried) == e
  }

  /** One to three execs were acquired, each spawned after the one before. */
  ghost predicate TriedOk(s: State, tried: seq<ExecId>) {
    && 1 <= |tried| <= MAX_TRIES
    && Last(tried) < |s.execs|
    && forall i :: 0 < i < |tried| ==> tried[i - 1] < tried[i]
  }

  /** What the client was sent and what waits behind the replay, against what the exec broadcast since. */
  ghost predicate Delivered(x: Exec, c: Client, listening: bool)
    requires c.Attached?
  {
    && c.since <= |x.log|
    && (c.armed ==> c.received == [] && c.tail <= x.log[c.since..])
    && (!c.armed ==> c.tail == [] && c.replay <= c.received <= c.replay + x.log[c.since..])
    && (listening && c.armed ==> c.tail == x.log[c.since..])
    && (listening && !c.armed ==> c.received == c.replay + x.log[c.since..])
  }

  ghost predicate ClientOk(s: State, a: AttachId)
    requires a in s.clients
  {
    match s.clients[a]
    case Awaiting(tried, _) => TriedOk(s, tried)
    case Capturing(tried, _) => TriedOk(s, tried) && s.execs[Last(tried)].promise.Ready?
    case Attached(tried, _, _, _, _, _) =>
      && TriedOk(s, tried) && s.execs[Last(tried)].promise.Ready?
      && Delivered(s.execs[Last(tried)], s.clients[a], a in s.execs[Last(tried)].listeners)
    case GaveUp(tried) => TriedOk(s, tried) && |tried| == MAX_TRIES && s.slot != Some(Last(tried))
    case SpawnFailed => true
  }

  ghost predicate Inv(s: State) {
    && SlotOk(s)
    && (forall e :: 0 <= e < |s.execs| ==> ExecOk(s, e))
    && (forall a :: a in s.clients ==> ClientOk(s, a))
    && (forall d :: d in s.detaching ==> d.exec < |s.execs|)
  }


  /** The slot was emptied or left alone, and a spawn may have settled; nobody's listeners changed. */
  lemma SlotKeepsInv(s: State, t: State)
    requires Inv(s)
    requires t.slot == s.slot || t.slot == None
    requires t.execs == s.execs && t.clients == s.clients
    requires forall d :: d in t.detaching ==> d.exec < |s.execs|
    ensures Inv(t)
  {
    forall e | 0 <= e < |t.execs| ensures ExecOk(t, e) {
      assert ExecOk(s, e);
    }
    forall a | a in t.clients ensures ClientOk(t, a) {
      assert ClientOk(s, a);
      hide Delivered;
    }
  }

  lemma SpawnedKeepsInv(s: State, e: ExecId, ok: bool)
    requires Inv(s) && e < |s.execs| && s.execs[e].promise.Spawning?
    ensures Inv(s.(execs := s.execs[e := s.execs[e].(promise := if ok then Ready else Rejected)]))
  {
    var t := s.(execs := s.execs[e := s.execs[e].(promise := if ok then Ready else Rejected)]);
    forall x | 0 <= x < |t.execs| ensures ExecOk(t, x) {
      hide Fits;
      assert ExecOk(s, x);
    }
    forall a | a in t.clients ensures ClientOk(t, a) {
      assert ClientOk(s, a);
    }
  }

  /** The attach may acquire an exec: it is new, or the last one it had has left the slot. */
  ghost predicate MayAcquire(s: State, a: AttachId, tried: seq<ExecId>) {
    && (a in s.clients ==> !s.clients[a].Attached?)
    && (tried != [] ==> TriedOk(s, tried) && |tried| < MAX_TRIES && s.slot != Some(Last(tried)))
  }

  lemma AcquireKeepsInv(s: State, a: AttachId, tried: seq<ExecId>, size: Option<Size>)
    requires Inv(s) && MayAcquire(s, a, tried)
    ensures Inv(AcquireFrom(s, a, tried, size))
  {
    var t := AcquireFrom(s, a, tried, size);
    forall x | 0 <= x < |t.execs| ensures ExecOk(t, x) {
      AcquireExecOk(s, a, tried, size, x);
    }
    forall b | b in t.clients ensures ClientOk(t, b) {
      AcquireClientOk(s, a, tried, size, b);
    }
    assert SlotOk(t);
    hide ExecOk, ClientOk;
  }

  lemma AcquireExecOk(s: State, a: AttachId, tried: seq<ExecId>, size: Option<Size>, x: ExecId)
    requires x < |AcquireFrom(s, a, tried, size).execs|
    requires SlotOk(s) && (x < |s.execs| ==> ExecOk(s, x))
    requires a in s.clients ==> !s.clients[a].Attached?
    ensures ExecOk(AcquireFrom(s, a, tried, size), x)
  {
    hide Fits;
  }

  lemma AcquireClientOk(s: State, a: AttachId, tried: seq<ExecId>, size: Option<Size>, b: AttachId)
    requires SlotOk(s) && b in AcquireFrom(s, a, tried, size).clients && MayAcquire(s, a, tried)
    requires b in s.clients ==> ClientOk(s, b)
    ensures ClientOk(AcquireFrom(s, a, tried, size), b)
  {
    hide Delivered;
  }

  /** One client moved on, and is not attached before or after. */
  lemma ClientKeepsInv(s: State, a: AttachId, c: Client)
    requires Inv(s) && a in s.clients && !s.clients[a].Attached? && !c.Attached?
    requires ClientOk(s.(clients := s.clients[a := c]), a)
    ensures Inv(s.(clients := s.clients[a := c]))
  {
    var t := s.(clients := s.clients[a := c]);
    forall x | 0 <= x < |t.execs| ensures ExecOk(t, x) {
      hide Fits;
      assert ExecOk(s, x);
    }
    forall b | b in t.clients ensures ClientOk(t, b) {
      if b != a {
        assert ClientOk(s, b);
      }
    }
  }

  lemma RegisterKeepsInv(s: State, a: AttachId, replay: seq<string>)
    requires Inv(s) && Enabled(s, Captured(a, None))
    ensures Inv(Register(s, a, replay))
  {
    assert ClientOk(s, a);
    var c := s.clients[a];
    var e := Last(c.tried);
    if s.slot != Some(e) {
      if |c.tried| >= MAX_TRIES {
        ClientKeepsInv(s, a, GaveUp(c.tried));
      } else {
        AcquireKeepsInv(s, a, c.tried, c.size);
      }
    } else {
      ListenKeepsInv(s, a, replay);
    }
  }

  lemma ListenKeepsInv(s: State, a: AttachId, replay: seq<string>)
    requires Inv(s) && Enabled(s, Captured(a, None)) && s.slot == Some(Last(s.clients[a].tried))
    ensures Inv(Register(s, a, replay))
  {
    var t := Register(s, a, replay);
    forall x | 0 <= x < |t.execs| ensures ExecOk(t, x) {
      ListenExecOk(s, a, replay, x);
    }
    forall b | b in t.clients ensures ClientOk(t, b) {
      ListenClientOk(s, a, replay, b);
    }
    hide ExecOk, ClientOk, Recomputed;
  }

  lemma ListenExecOk(s: State, a: AttachId, replay: seq<string>, x: ExecId)
    requires Enabled(s, Captured(a, None)) && s.slot == Some(Last(s.clients[a].tried))
    requires x < |s.execs| && ExecOk(s, x) && ClientOk(s, a)
    ensures ExecOk(Register(s, a, replay), x)
  {
    hide Fits;
  }

  lemma ListenClientOk(s: State, a: AttachId, replay: seq<string>, b: AttachId)
    requires Enabled(s, Captured(a, None)) && s.slot == Some(Last(s.clients[a].tried))
    requires b in s.clients && ClientOk(s, b) && ClientOk(s, a)
    ensures ClientOk(Register(s, a, replay), b)
  {
    hide Fits;
  }

  lemma BroadcastKeepsInv(s: State, e: ExecId, chunk: string)
    requires Inv(s) && Enabled(s, Data(e, chunk))
    ensures Inv(Broadcast(s, e, chunk))
  {
    var t := Broadcast(s, e, chunk);
    forall x | 0 <= x < |t.execs| ensures ExecOk(t, x) {
      hide Fits;
      assert ExecOk(s, x);
    }
    forall a | a in t.clients ensures ClientOk(t, a) {
      assert ExecOk(s, e);
      BroadcastClientOk(s, e, chunk, a);
    }
    hide ExecOk, ClientOk, Hear;
  }

  lemma BroadcastClientOk(s: State, e: ExecId, chunk: string, a: AttachId)
    requires Enabled(s, Data(e, chunk)) && ExecOk(s, e) && a in s.clients && ClientOk(s, a)
    ensures ClientOk(Broadcast(s, e, chunk), a)
  {
    hide Fits;
    var c := s.clients[a];
    if c.Attached? && Last(c.tried) == e {
      HearsAll(s.execs[e], c, a in s.execs[e].listeners, chunk);
    }
    hide Delivered;
  }

  lemma HearsAll(x: Exec, c: Client, listening: bool, chunk: string)
    requires c.Attached? && Delivered(x, c, listening)
    ensures Delivered(x.(log := x.log + [chunk]), if listening then Hear(c, chunk) else c, listening)
  {
    var y := x.(log := x.log + [chunk]);
    assert y.log[c.since..] == x.log[c.since..] + [chunk];
    assert c.replay + y.log[c.since..] == c.replay + x.log[c.since..] + [chunk];
  }

  lemma FlushKeepsInv(s: State, a: AttachId)
    requires Inv(s) && Enabled(s, Flushing(a))
    ensures Inv(Flush(s, a))
  {
    var t := Flush(s, a);
    forall x | 0 <= x < |t.execs| ensures ExecOk(t, x) {
      hide Fits;
      assert ExecOk(s, x);
    }
    forall b | b in t.clients ensures ClientOk(t, b) {
      assert ClientOk(s, b);
      if b == a {
        FlushDelivers(s.execs[Last(s.clients[a].tried)], s.clients[a], a in s.execs[Last(s.clients[a].tried)].listeners);
      }
    }
  }

  lemma FlushDelivers(x: Exec, c: Client, listening: bool)
    requires c.Attached? && c.armed && Delivered(x, c, listening)
    ensures Delivered(x, c.(armed := false, received := c.received + c.replay + c.tail, tail := []), listening)
  {
  }

  /** An exec changed its listeners or sizes, by nobody joining. */
  lemma LeaveKeepsInv(s: State, t: State, e: ExecId, x: Exec)
    requires Inv(s) && e < |s.execs|
    requires t.execs == s.execs[e := x] && t.clients == s.clients
    requires t.slot == s.slot || t.slot == None
    requires t.detaching <= s.detaching
    requires x.promise == s.execs[e].promise && x.log == s.execs[e].log && x.listeners <= s.execs[e].listeners && SizeOk(x)
    requires x.torn ==> x.listeners == {} && t.slot != Some(e)
    ensures Inv(t)
  {
    forall y | 0 <= y < |t.execs| ensures ExecOk(t, y) {
      hide Fits;
      assert ExecOk(s, y);
      if y == e { hide SizeOk; }
    }
    forall a | a in t.clients ensures ClientOk(t, a) {
      assert ClientOk(s, a);
    }
  }

  lemma ResizeKeepsInv(s: State, a: AttachId, e: ExecId, size: Size)
    requires Inv(s) && Enabled(s, Resizing(a, e, size))
    ensures Inv(Resize(s, a, e, size))
  {
    assert ExecOk(s, e);
    var x := s.execs[e];
    if a in x.sizes {
      LeaveKeepsInv(s, Resize(s, a, e, size), e, Recomputed(x.(sizes := x.sizes[a := size])));
    }
  }

  lemma FinishDetachKeepsInv(s: State, d: Detach)
    requires Inv(s) && Enabled(s, Detached(d))
    ensures Inv(FinishDetach(s, d))
  {
    assert ExecOk(s, d.exec);
    var x := s.execs[d.exec];
    var y := Leaving(x, d.client);
    if !x.promise.Ready? {
      SlotKeepsInv(s, FinishDetach(s, d));
    } else if y.listeners == {} {
      LeaveKeepsInv(s, FinishDetach(s, d), d.exec, y.(torn := true));
    } else {
      LeaveKeepsInv(s, FinishDetach(s, d), d.exec, Recomputed(y));
    }
  }

  lemma StepKeepsInv(s: State, ev: Event)
    requires Inv(s) && Enabled(s, ev)
    ensures Inv(Step(s, ev))
  {
    hide ExecOk, ClientOk, Recomputed, Hear, SlotOk;
    match ev
    case Attaching(a, size) => AcquireKeepsInv(s, a, [], size);
    case Spawned(e, ok) => SpawnedKeepsInv(s, e, ok);
    case ClearFailed(e) => SlotKeepsInv(s, Step(s, ev));
    case Resuming(a) =>
      ResumeOk(s, a);
      ClientKeepsInv(s, a, Resume(s, a).clients[a]);
    case Captured(a, replay) => RegisterKeepsInv(s, a, Screen(replay));
    case Data(e, chunk) => BroadcastKeepsInv(s, e, chunk);
    case Flushing(a) => FlushKeepsInv(s, a);
    case Resizing(a, e, size) => ResizeKeepsInv(s, a, e, size);
    case Detaching(a) => DetachingKeepsInv(s, a);
    case Detached(d) => FinishDetachKeepsInv(s, d);
    case SlotDropped => SlotKeepsInv(s, Step(s, ev));
    case KilledContainer => SlotKeepsInv(s, Step(s, ev));
  }

  lemma ResumeOk(s: State, a: AttachId)
    requires Inv(s) && Enabled(s, Resuming(a))
    ensures ClientOk(Resume(s, a), a)
  {
    assert ClientOk(s, a);
  }

  lemma DetachingKeepsInv(s: State, a: AttachId)
    requires Inv(s)
    ensures Inv(StartDetach(s, a))
  {
    SlotKeepsInv(s, StartDetach(s, a));
  }

  // ----- Every run

  lemma {:induction false} ReachableInv(run: seq<State>, events: seq<Event>, n: nat)
    requires IsRun(run, events) && n < |run|
    ensures Inv(run[n])
    decreases n
  {
    if n == 0 {
      assert run[0] == INITIAL;
    } else {
      ReachableInv(run, events, n - 1);
      StepKeepsInv(run[n - 1], events[n - 1]);
    }
  }

  lemma StepKeepsTorn(s: State, ev: Event, e: ExecId)
    requires Inv(s) && Enabled(s, ev) && e < |s.execs|
    ensures e < |Step(s, ev).execs| && (s.execs[e].torn ==> Step(s, ev).execs[e].torn)
    ensures s.execs[e].log <= Step(s, ev).execs[e].log
  {
    hide Smallest, Fits, ExecOk, ClientOk, Hear;
  }

  /** An exec a detach took down never gets a listener again and never returns to the slot. */
  lemma {:induction false} TornStaysDown(run: seq<State>, events: seq<Event>, i: nat, j: nat, e: ExecId)
    requires IsRun(run, events) && i <= j < |run| && e < |run[i].execs| && run[i].execs[e].torn
    ensures e < |run[j].execs| && run[j].execs[e].torn
    ensures run[j].execs[e].listeners == {} && run[j].slot != Some(e)
    decreases j
  {
    hide Step, Enabled, SizeOk, ClientOk;
    ReachableInv(run, events, j);
    if i < j {
      TornStaysDown(run, events, i, j - 1, e);
      ReachableInv(run, events, j - 1);
      StepKeepsTorn(run[j - 1], events[j - 1], e);
    }
    assert ExecOk(run[j], e);
  }

  /** An attach that gets through its second look at the slot listens to the live exec of the slot, its third at most. */
  lemma RegistersOnTheSlotExec(run: seq<State>, events: seq<Event>, n: nat, a: AttachId)
    requires IsRun(run, events) && n < |events|
    requires a in run[n + 1].clients && run[n + 1].clients[a].Attached?
    requires !(a in run[n].clients && run[n].clients[a].Attached?)
    ensures var c := run[n + 1].clients[a];
      && 1 <= |c.tried| <= MAX_TRIES && Last(c.tried) < |run[n].execs| && Last(c.tried) < |run[n + 1].execs|
      && run[n].slot == run[n + 1].slot == Some(Last(c.tried))
      && a in run[n + 1].execs[Last(c.tried)].listeners
      && run[n].execs[Last(c.tried)].promise.Ready? && !run[n + 1].execs[Last(c.tried)].torn
      && c.since == |run[n].execs[Last(c.tried)].log|
  {
    ReachableInv(run, events, n);
    ReachableInv(run, events, n + 1);
    BecomesAttached(run[n], events[n], a);
    assert ClientOk(run[n + 1], a);
    assert ExecOk(run[n + 1], Last(run[n + 1].clients[a].tried));
  }

  lemma BecomesAttached(s: State, ev: Event, a: AttachId)
    requires Inv(s) && Enabled(s, ev)
    requires a in Step(s, ev).clients && Step(s, ev).clients[a].Attached?
    requires !(a in s.clients && s.clients[a].Attached?)
    ensures ev.Captured? && ev.a == a && s.slot == Some(Last(s.clients[a].tried))
    ensures Step(s, ev) == Register(s, a, Screen(ev.replay)) && s.execs[Last(s.clients[a].tried)].promise.Ready?
  {
    hide Smallest, Fits, ExecOk;
    if a in s.clients {
      assert ClientOk(s, a);
    }
  }

  lemma StaysAttached(s: State, ev: Event, a: AttachId)
    requires Enabled(s, ev) && a in s.clients && s.clients[a].Attached?
    ensures a in Step(s, ev).clients && Step(s, ev).clients[a].Attached?
    ensures var c, d := s.clients[a], Step(s, ev).clients[a];
      c.tried == d.tried && c.since == d.since && c.replay == d.replay
  {
    hide Smallest, Fits;
  }

  ghost predicate SameRegistration(s: State, a: AttachId, tried: seq<ExecId>, since: nat, replay: seq<string>) {
    && a in s.clients && s.clients[a].Attached?
    && s.clients[a].tried == tried && s.clients[a].since == since && s.clients[a].replay == replay
  }

  lemma {:induction false} RegistrationLasts(run: seq<State>, events: seq<Event>, i: nat, j: nat, a: AttachId)
    requires IsRun(run, events) && i <= j < |run| && a in run[i].clients && run[i].clients[a].Attached?
    ensures SameRegistration(run[j], a, run[i].clients[a].tried, run[i].clients[a].since, run[i].clients[a].replay)
    decreases j
  {
    hide Step, Enabled;
    if i < j {
      RegistrationLasts(run, events, i, j - 1, a);
      StaysAttached(run[j - 1], events[j - 1], a);
    }
  }

  /** The chunks the exec's stream delivered from step `i` to `j`; an empty one is none. */
  function Delivery(events: seq<Event>, i: nat, j: nat, e: ExecId): seq<string>
    requires i <= j <= |events|
  {
    if i == j then []
    else
      var last := events[j - 1];
      Delivery(events, i, j - 1, e) + if last.Data? && last.e == e && last.chunk != "" then [last.chunk] else []
  }

  lemma LogStep(s: State, ev: Event, e: ExecId)
    requires Inv(s) && Enabled(s, ev) && e < |s.execs|
    ensures e < |Step(s, ev).execs|
    ensures Step(s, ev).execs[e].log == s.execs[e].log + if ev.Data? && ev.e == e && ev.chunk != "" then [ev.chunk] else []
  {
    hide Smallest, Fits, ExecOk, ClientOk, Hear;
  }

  lemma {:induction false} LogIsDelivery(run: seq<State>, events: seq<Event>, i: nat, j: nat, e: ExecId)
    requires IsRun(run, events) && i <= j < |run| && e < |run[i].execs|
    ensures e < |run[j].execs| && run[j].execs[e].log == run[i].execs[e].log + Delivery(events, i, j, e)
    decreases j
  {
    hide Step, Enabled, Inv;
    if i < j {
      LogIsDelivery(run, events, i, j - 1, e);
      ReachableInv(run, events, j - 1);
      LogStep(run[j - 1], events[j - 1], e);
    }
  }

  /**
   A client that registered at step `i` and still listens at `j` was sent exactly the captured screen, if there was one,
   and then every chunk the exec's stream delivered in between, in order; before it was sent the screen it was sent
   nothing. What a client that has left was sent is a prefix of that, and starts with the screen.
   */
  lemma ReplayThenEveryChunk(run: seq<State>, events: seq<Event>, i: nat, j: nat, a: AttachId, replay: Option<string>)
    requires IsRun(run, events) && i < j < |run| && events[i] == Captured(a, replay)
    requires a in run[i + 1].clients && run[i + 1].clients[a].Attached?
    ensures a in run[i].clients && run[i].clients[a].Capturing? && run[i].clients[a].tried != []
    ensures a in run[j].clients && run[j].clients[a].Attached?
    ensures var e, c := Last(run[i].clients[a].tried), run[j].clients[a];
      && e < |run[i].execs| && e < |run[j].execs|
      && var chunks := Delivery(events, i, j, e);
      var since := if replay.Some? then [replay.value] + chunks else chunks;
      && (c.armed ==> c.received == [])
      && c.received <= since
      && (!c.armed && replay.Some? ==> c.received != [] && c.received[0] == replay.value)
      && (a in run[j].execs[e].listeners && !c.armed ==> c.received == since)
  {
    ReachableInv(run, events, i);
    ReachableInv(run, events, j);
    BecomesAttached(run[i], events[i], a);
    RegistrationLasts(run, events, i + 1, j, a);
    LogIsDelivery(run, events, i, j, Last(run[i].clients[a].tried));
    assert ClientOk(run[j], a);
    hide IsRun, Delivery, Inv;
  }

  /** An attach only gives up after three different execs, none of them in the slot any more. */
  lemma GivesUpAfterThree(run: seq<State>, events: seq<Event>, n: nat, a: AttachId)
    requires IsRun(run, events) && n < |run| && a in run[n].clients && run[n].clients[a].GaveUp?
    ensures |run[n].clients[a].tried| == 3
    ensures forall k :: 0 <= k < 3 ==> run[n].slot != Some(run[n].clients[a].tried[k])
    ensures forall k :: 0 < k < 3 ==> run[n].clients[a].tried[k - 1] < run[n].clients[a].tried[k]
  {
    ReachableInv(run, events, n);
    assert ClientOk(run[n], a);
    var tried := run[n].clients[a].tried;
    assert tried[0] < tried[1] < tried[2];
  }

  /** The pane always has the smallest size its clients asked for, and only listeners count. */
  lemma PaneFitsItsClients(run: seq<State>, events: seq<Event>, n: nat, e: ExecId)
    requires IsRun(run, events) && n < |run| && e < |run[n].execs|
    ensures run[n].execs[e].sizes.Keys <= run[n].execs[e].listeners
    ensures run[n].execs[e].sizes != map[] ==> Fits(run[n].execs[e].applied, run[n].execs[e].sizes)
  {
    ReachableInv(run, events, n);
    assert ExecOk(run[n], e);
  }

  /** The attach exists, will not ask for a size, and has none anywhere. */
  ghost predicate Observes(s: State, a: AttachId) {
    && a in s.clients
    && (s.clients[a].Awaiting? || s.clients[a].Capturing? ==> s.clients[a].size == None)
    && forall e :: 0 <= e < |s.execs| ==> a !in s.execs[e].sizes
  }

  lemma StepKeepsObserves(s: State, ev: Event, a: AttachId)
    requires Inv(s) && Enabled(s, ev) && Observes(s, a)
    ensures Observes(Step(s, ev), a)
  {
    hide Smallest, Fits, ExecOk, ClientOk;
  }

  /** An observer never shrinks the pane: it has no size on any exec, for the whole run. */
  lemma {:induction false} ObserversHaveNoSize(run: seq<State>, events: seq<Event>, i: nat, j: nat, a: AttachId)
    requires IsRun(run, events) && i < j < |run| && events[i] == Attaching(a, None)
    ensures Observes(run[j], a)
    decreases j
  {
    ReachableInv(run, events, i);
    if i + 1 == j {
      forall e | 0 <= e < |run[i].execs| ensures a !in run[i].execs[e].sizes {
        assert ExecOk(run[i], e);
      }
    } else {
      ObserversHaveNoSize(run, events, i, j - 1, a);
      ReachableInv(run, events, j - 1);
      StepKeepsObserves(run[j - 1], events[j - 1], a);
    }
  }

  // ----- One step

  /**
   A captured pane: while the exec it came from holds the slot the client registers there; otherwise it acquires the slot's
   exec, or a new one, and after the third try it gives up.
   */
  lemma CaptureEnds(s: State, a: AttachId, replay: Option<string>)
    requires Inv(s) && Enabled(s, Captured(a, replay))
    ensures var c, t := s.clients[a], Step(s, Captured(a, replay));
      && a in t.clients
      && (t.clients[a].Attached? <==> s.slot == Some(Last(c.tried)))
      && (t.clients[a] == GaveUp(c.tried) <==> s.slot != Some(Last(c.tried)) && |c.tried| >= 3)
      && (s.slot != Some(Last(c.tried)) && |c.tried| < 3 ==>
        && t.slot.Some? && t.clients[a] == Awaiting(c.tried + [t.slot.value], c.size)
        && (s.slot.Some? ==> t.slot == s.slot && t.execs == s.execs)
        && (s.slot.None? ==> t.slot == Some(|s.execs|) && t.execs == s.execs + [NEW_EXEC]))
      && (t.clients[a].Attached? ==> a in t.routed)
  {
    hide Smallest, Fits, ExecOk, ClientOk;
  }

  /** The caller's flush sends the screen and what was kept behind it, and passes everything on from then on. */
  lemma FlushSends(s: State, a: AttachId)
    requires Enabled(s, Flushing(a))
    ensures var c, d := s.clients[a], Step(s, Flushing(a)).clients[a];
      d.Attached? && !d.armed && d.tail == [] && d.received == c.received + c.replay + c.tail
  {
    hide Smallest, Fits;
  }

  /** A detach takes the route at once, and the client from the exec in the slot when it finishes. */
  lemma DetachStarts(s: State, a: AttachId)
    ensures var t := Step(s, Detaching(a));
      && a !in t.routed && t.execs == s.execs && t.slot == s.slot
      && t.detaching == s.detaching + if a in s.routed && s.slot.Some? then {Detach(a, s.slot.value)} else {}
  {
    hide Smallest, Fits;
  }

  /** The end of a detach from an exec that was spawned: nobody left takes it down and vacates its slot, and no other. */
  lemma DetachEnds(s: State, d: Detach)
    requires Inv(s) && Enabled(s, Detached(d))
    ensures var x, t := s.execs[d.exec], Step(s, Detached(d));
      && t.detaching == s.detaching - {d} && t.clients == s.clients && |t.execs| == |s.execs|
      && (x.promise.Ready? ==> t.execs[d.exec].listeners == x.listeners - {d.client} && d.client !in t.execs[d.exec].sizes)
      && (x.promise.Ready? && x.listeners <= {d.client} ==>
        t.execs[d.exec].torn && t.slot == if s.slot == Some(d.exec) then None else s.slot)
      && (x.promise.Rejected? || !(x.listeners <= {d.client}) ==> t.slot == s.slot && t.execs[d.exec].torn == x.torn)
      && (forall e :: 0 <= e < |s.execs| && e != d.exec ==> t.execs[e] == s.execs[e])
  {
    assert s.execs[d.exec].listeners - {d.client} == {} <==> s.execs[d.exec].listeners <= {d.client};
    hide Smallest, Fits, ExecOk, ClientOk;
  }

  /** A spawn that failed vacates its own slot only; a stream's end vacates whatever slot there is, a kill the routes too. */
  lemma SlotsVacate(s: State, e: ExecId)
    requires Enabled(s, ClearFailed(e))
    ensures Step(s, ClearFailed(e)) == s.(slot := if s.slot == Some(e) then None else s.slot)
    ensures Step(s, SlotDropped) == s.(slot := None)
    ensures Step(s, KilledContainer) == s.(slot := None, routed := {})
  {
    hide Smallest, Fits;
  }

  // ----- Sizes

  /** The size a client asked for last: when it attached, or by a resize since it registered at step `m`. */
  function LastAsked(events: seq<Event>, m: nat, n: nat, a: AttachId, e: ExecId, first: Size): Size
    requires m <= n <= |events|
  {
    if m == n then first
    else
      var last := events[n - 1];
      if last.Resizing? && last.a == a && last.e == e then last.size else LastAsked(events, m, n - 1, a, e, first)
  }

  ghost predicate Asks(s: State, a: AttachId, size: Option<Size>) {
    a in s.clients && (s.clients[a].Awaiting? || s.clients[a].Capturing? ==> s.clients[a].size == size)
  }

  lemma StepKeepsAsks(s: State, ev: Event, a: AttachId, size: Option<Size>)
    requires Enabled(s, ev) && Asks(s, a, size)
    ensures Asks(Step(s, ev), a, size)
  {
    hide Smallest, Fits;
  }

  lemma {:induction false} StillAsks(run: seq<State>, events: seq<Event>, i: nat, j: nat, a: AttachId, size: Option<Size>)
    requires IsRun(run, events) && i < j < |run| && events[i] == Attaching(a, size)
    ensures Asks(run[j], a, size)
    decreases j
  {
    if i + 1 < j {
      hide Step, Enabled, Asks;
      StillAsks(run, events, i, j - 1, a, size);
      StepKeepsAsks(run[j - 1], events[j - 1], a, size);
    }
  }

  lemma SizeStep(s: State, ev: Event, a: AttachId, e: ExecId)
    requires Inv(s) && Enabled(s, ev) && RegisteredOn(s, a, e) && RegisteredOn(Step(s, ev), a, e)
    requires a in Step(s, ev).execs[e].listeners && a in s.execs[e].listeners
    ensures a in Step(s, ev).execs[e].sizes <==> a in s.execs[e].sizes
    ensures a in s.execs[e].sizes ==>
      Step(s, ev).execs[e].sizes[a] == if ev.Resizing? && ev.a == a && ev.e == e then ev.size else s.execs[e].sizes[a]
  {
    hide Smallest, Fits, ExecOk, ClientOk, Hear, SlotOk;
  }

  lemma SizeAtFirst(s: State, a: AttachId, replay: Option<string>, size: Option<Size>)
    requires Inv(s) && Enabled(s, Captured(a, replay)) && Asks(s, a, size)
    requires Step(s, Captured(a, replay)).clients[a].Attached?
    ensures var e, t := Last(s.clients[a].tried), Step(s, Captured(a, replay));
      && RegisteredOn(t, a, e) && a in t.execs[e].listeners
      && (size.Some? ==> a in t.execs[e].sizes && t.execs[e].sizes[a] == size.value)
  {
    assert ClientOk(s, a);
    hide Smallest, Fits, ExecOk;
  }

  /**
   A client that attached with a size counts on its exec with the size it last asked for, for as long as it listens; by
   PaneFitsItsClients the pane is the smallest of those.
   */
  lemma {:induction false} SizesAreAsked(run: seq<State>, events: seq<Event>, h: nat, i: nat, j: nat, a: AttachId, size: Size,
                                         replay: Option<string>)
    requires IsRun(run, events) && h < i < j < |run| && events[h] == Attaching(a, Some(size)) && events[i] == Captured(a, replay)
    requires a in run[i + 1].clients && run[i + 1].clients[a].Attached?
    ensures a in run[i].clients && run[i].clients[a].Capturing? && run[i].clients[a].tried != []
    ensures var e := Last(run[i].clients[a].tried);
      && RegisteredOn(run[j], a, e)
      && (a in run[j].execs[e].listeners ==>
        a in run[j].execs[e].sizes && run[j].execs[e].sizes[a] == LastAsked(events, i + 1, j, a, e, size))
    decreases j
  {
    StillAsks(run, events, h, i, a, Some(size));
    ReachableInv(run, events, i);
    assert Enabled(run[i], events[i]) && run[i + 1] == Step(run[i], events[i]);
    SizeAtFirst(run[i], a, replay, Some(size));
    hide Step, Enabled, Inv, Asks;
    if i + 1 < j {
      var e := Last(run[i].clients[a].tried);
      SizesAreAsked(run, events, h, i, j - 1, a, size, replay);
      ReachableInv(run, events, j - 1);
      StopsListening(run[j - 1], events[j - 1], a, e);
      if a in run[j].execs[e].listeners {
        SizeStep(run[j - 1], events[j - 1], a, e);
      }
    }
  }

  // ----- Leaving

  ghost predicate ListensSomewhere(s: State, a: AttachId) {
    exists e :: 0 <= e < |s.execs| && a in s.execs[e].listeners
  }

  /** The client has registered, on the exec `e`. */
  ghost predicate RegisteredOn(s: State, a: AttachId, e: ExecId) {
    a in s.clients && s.clients[a].Attached? && s.clients[a].tried != [] && Last(s.clients[a].tried) == e < |s.execs|
  }

  /** A client listens on no exec but the one it registered on. */
  lemma ListensOnItsOwn(s: State, a: AttachId, e: ExecId)
    requires Inv(s) && RegisteredOn(s, a, e)
    ensures ListensSomewhere(s, a) <==> a in s.execs[e].listeners
  {
    hide ClientOk;
    forall x | 0 <= x < |s.execs| && a in s.execs[x].listeners ensures x == e {
      assert ExecOk(s, x);
    }
  }

  /** After a detach has finished its client listens nowhere exactly when the exec it finished on is the client's. */
  lemma DetachedLeavesExactly(s: State, d: Detach, e: ExecId)
    requires Inv(s) && Enabled(s, Detached(d)) && RegisteredOn(s, d.client, e) && d.client in s.execs[e].listeners
    ensures ListensSomewhere(Step(s, Detached(d)), d.client) <==> d.exec != e
  {
    StepKeepsInv(s, Detached(d));
    assert ClientOk(s, d.client);
    ListensOnItsOwn(Step(s, Detached(d)), d.client, e);
    hide Inv, Recomputed;
  }

  /** A routed client is registered and listens; a client being detached is routed no more. */
  ghost predicate RoutesOk(s: State) {
    && (forall a :: a in s.routed ==> Listens(s, a))
    && (forall d :: d in s.detaching ==> d.client in s.clients && s.clients[d.client].Attached? && d.client !in s.routed)
  }

  ghost predicate Listens(s: State, a: AttachId) {
    && a in s.clients && s.clients[a].Attached? && s.clients[a].tried != []
    && Last(s.clients[a].tried) < |s.execs| && a in s.execs[Last(s.clients[a].tried)].listeners
  }

  /** Only the end of a detach of this client from this exec makes it stop listening, and nothing makes it listen again. */
  lemma StopsListening(s: State, ev: Event, a: AttachId, e: ExecId)
    requires Inv(s) && Enabled(s, ev) && RegisteredOn(s, a, e)
    ensures RegisteredOn(Step(s, ev), a, e)
    ensures a in Step(s, ev).execs[e].listeners <==> a in s.execs[e].listeners && ev != Detached(Detach(a, e))
  {
    assert ClientOk(s, a);
    StaysAttached(s, ev, a);
    hide Smallest, Fits, ExecOk, ClientOk, Hear, SlotOk;
  }

  lemma StepKeepsRoutes(s: State, ev: Event)
    requires Inv(s) && Enabled(s, ev) && RoutesOk(s)
    ensures RoutesOk(Step(s, ev))
  {
    var t := Step(s, ev);
    forall a | a in t.routed ensures Listens(t, a) {
      if a in s.routed {
        StopsListening(s, ev, a, Last(s.clients[a].tried));
        StaysAttached(s, ev, a);
      } else {
        RoutedAnew(s, ev, a);
      }
      hide Step, Enabled, Inv;
    }
    forall d | d in t.detaching ensures d.client in t.clients && t.clients[d.client].Attached? && d.client !in t.routed {
      DetachingClients(s, ev, d);
      StaysAttached(s, ev, d.client);
      hide Step, Enabled, Inv;
    }
  }

  lemma RoutedAnew(s: State, ev: Event, a: AttachId)
    requires Enabled(s, ev) && a in Step(s, ev).routed && a !in s.routed
    ensures Listens(Step(s, ev), a)
  {
    hide Smallest, Fits;
  }

  lemma DetachingClients(s: State, ev: Event, d: Detach)
    requires Enabled(s, ev) && RoutesOk(s) && d in Step(s, ev).detaching
    ensures d.client in s.clients && s.clients[d.client].Attached? && d.client !in Step(s, ev).routed
  {
    hide Smallest, Fits;
  }

  lemma {:induction false} ReachableRoutes(run: seq<State>, events: seq<Event>, n: nat)
    requires IsRun(run, events) && n < |run|
    ensures RoutesOk(run[n])
    decreases n
  {
    if n > 0 {
      ReachableRoutes(run, events, n - 1);
      ReachableInv(run, events, n - 1);
      StepKeepsRoutes(run[n - 1], events[n - 1]);
      hide Step, Enabled;
    }
  }

  ghost predicate Finished(events: seq<Event>, i: nat, j: nat, d: Detach) {
    exists k: nat :: i < k < j && k < |events| && events[k] == Detached(d)
  }

  /** Since its detach at step `i` the client has no route, and no detach but the one from the slot's exec of then. */
  ghost predicate GoneFrom(s: State, a: AttachId, slot: Option<ExecId>) {
    && a !in s.routed
    && forall d :: d in s.detaching && d.client == a ==> slot == Some(d.exec)
  }

  lemma StaysGone(s: State, ev: Event, a: AttachId, slot: Option<ExecId>)
    requires Enabled(s, ev) && GoneFrom(s, a, slot) && a in s.clients && s.clients[a].Attached?
    ensures GoneFrom(Step(s, ev), a, slot)
    ensures ev.Detached? && ev.d.client == a ==> slot == Some(ev.d.exec)
  {
    hide Smallest, Fits;
  }

  lemma Leaves(s: State, a: AttachId)
    requires RoutesOk(s) && a in s.routed
    ensures Listens(s, a) && GoneFrom(StartDetach(s, a), a, s.slot)
  {
  }

  /**
   A client that detaches at step `i` listens nowhere at `j` exactly when the slot then held the exec it had registered
   on and that detach has finished since. When the slot was empty or had changed hands the client listens on for good.
   */
  lemma {:induction false} LeavesExactly(run: seq<State>, events: seq<Event>, i: nat, j: nat, a: AttachId)
    requires IsRun(run, events) && i < j < |run| && events[i] == Detaching(a) && a in run[i].routed
    ensures Listens(run[i], a)
    ensures var e := Last(run[i].clients[a].tried);
      && RegisteredOn(run[j], a, e) && GoneFrom(run[j], a, run[i].slot)
      && (ListensSomewhere(run[j], a) <==> !(run[i].slot == Some(e) && Finished(events, i, j, Detach(a, e))))
    decreases j
  {
    hide Step, Enabled, Inv, RoutesOk, GoneFrom, ListensSomewhere, StartDetach;
    ReachableInv(run, events, j);
    ReachableRoutes(run, events, i);
    Leaves(run[i], a);
    var e := Last(run[i].clients[a].tried);
    ReachableInv(run, events, j - 1);
    if i + 1 < j {
      LeavesExactly(run, events, i, j - 1, a);
      ListensOnItsOwn(run[j - 1], a, e);
      StaysGone(run[j - 1], events[j - 1], a, run[i].slot);
    } else {
      DetachingStarts(run[i], a);
    }
    StopsListening(run[j - 1], events[j - 1], a, e);
    ListensOnItsOwn(run[j], a, e);
    FinishedNow(events, i, j, Detach(a, e));
  }

  /** Such a client: its stream's slot is dropped before it detaches, and it stays a listener. */
  lemma LeftListening() returns (run: seq<State>, events: seq<Event>)
    ensures IsRun(run, events) && |events| == 6 && events[5] == Detaching(0) && 0 in run[5].routed
    ensures run[6].detaching == {} && 0 !in run[6].routed && ListensSomewhere(run[6], 0)
  {
    events := [Attaching(0, None), Spawned(0, true), Resuming(0), Captured(0, None), SlotDropped, Detaching(0)];
    var (s1, s2, s3, s4) := FirstAttach();
    var s5 := s4.(slot := None);
    run := [INITIAL, s1, s2, s3, s4, s5, s5.(routed := {})];
    Attaches();
    Drops(s4);
    hide Step, Enabled;
    assert 0 in run[6].execs[0].listeners;
  }

  /** The states of a first attach, with no size. */
  function FirstAttach(): (State, State, State, State) {
    var x := NEW_EXEC.(promise := Ready);
    (State(Some(0), [NEW_EXEC], map[0 := Awaiting([0], None)], {}, {}),
     State(Some(0), [x], map[0 := Awaiting([0], None)], {}, {}),
     State(Some(0), [x], map[0 := Capturing([0], None)], {}, {}),
     State(Some(0), [x.(listeners := {0})], map[0 := Attached([0], 0, [], true, [], [])], {0}, {}))
  }

  lemma Attaches()
    ensures var (s1, s2, s3, s4) := FirstAttach();
      && Enabled(INITIAL, Attaching(0, None)) && Step(INITIAL, Attaching(0, None)) == s1
      && Enabled(s1, Spawned(0, true)) && Step(s1, Spawned(0, true)) == s2
      && Enabled(s2, Resuming(0)) && Step(s2, Resuming(0)) == s3
      && Enabled(s3, Captured(0, None)) && Step(s3, Captured(0, None)) == s4
  {
    hide Smallest;
    var (s1, s2, s3, s4) := FirstAttach();
    assert [] + [0] == [0] && [] + [NEW_EXEC] == [NEW_EXEC];
    assert {} + {0} == {0};
    assert s3.execs[0 := s4.execs[0]] == s4.execs;
    assert Listening(s3.execs[0], 0, None) == s4.execs[0];
    assert map[0 := Awaiting([0], None)] == map[][0 := Awaiting([0], None)];
    assert s3.clients[0 := s4.clients[0]] == s4.clients;
  }

  lemma Drops(s: State)
    requires s.slot.Some? && s.routed == {0}
    ensures Enabled(s, SlotDropped) && Step(s, SlotDropped) == s.(slot := None)
    ensures var t := s.(slot := None); Enabled(t, Detaching(0)) && Step(t, Detaching(0)) == t.(routed := {})
  {
  }

  lemma DetachingStarts(s: State, a: AttachId)
    ensures Enabled(s, Detaching(a)) && Step(s, Detaching(a)) == StartDetach(s, a)
  {
  }

  lemma FinishedNow(events: seq<Event>, i: nat, j: nat, d: Detach)
    requires i < j <= |events|
    ensures Finished(events, i, j, d) <==> Finished(events, i, j - 1, d) || (i < j - 1 && events[j - 1] == Detached(d))
  {
  }

  // ----- The code

  lemma RecomputedIs(x: Exec, y: Exec)
    requires y == x.(applied := y.applied)
    requires if x.sizes == map[] then y == x else Fits(y.applied, x.sizes)
    ensures y == Recomputed(x)
  {
    if x.sizes != map[] {
      FitsIsUnique(y.applied, Smallest(x.sizes), x.sizes);
    }
  }

  class TabExecs {
    var slot: Option<ExecId>
    var execs: seq<Exec>
    var clients: map<AttachId, Client>
    var routed: set<AttachId>
    var detaching: set<Detach>

    ghost function View(): State
      reads this
    {
      State(slot, execs, clients, routed, detaching)
    }

    constructor ()
      ensures View() == INITIAL
    {
      slot, execs, clients, routed, detaching := None, [], map[], {}, {};
    }

    /** The start of an attach, and of each of its retries. */
    method Acquire(a: AttachId, tried: seq<ExecId>, size: Option<Size>)
      modifies this
      ensures View() == AcquireFrom(old(View()), a, tried, size)
    {
      if slot.None? {
        slot, execs := Some(|execs|), execs + [NEW_EXEC];
      }
      clients := clients[a := Awaiting(tried + [slot.value], size)];
    }

    method Attach(a: AttachId, size: Option<Size>)
      requires Inv(View()) && a !in clients
      modifies this
      ensures Inv(View()) && View() == Step(old(View()), Attaching(a, size))
    {
      StepKeepsInv(View(), Attaching(a, size));
      Acquire(a, [], size);
    }

    /** The spawn promise of an exec settles; a rejection empties its slot in a reaction of its own. */
    method SpawnSettled(e: ExecId, ok: bool)
      requires Inv(View()) && Enabled(View(), Spawned(e, ok))
      modifies this
      ensures Inv(View()) && View() == Step(old(View()), Spawned(e, ok))
    {
      StepKeepsInv(View(), Spawned(e, ok));
      hide Inv;
      execs := execs[e := execs[e].(promise := if ok then Ready else Rejected)];
    }

    method SpawnFailureSeen(e: ExecId)
      requires Inv(View()) && Enabled(View(), ClearFailed(e))
      modifies this
      ensures Inv(View()) && View() == Step(old(View()), ClearFailed(e))
    {
      StepKeepsInv(View(), ClearFailed(e));
      hide Inv;
      if slot == Some(e) {
        slot := None;
      }
    }

    /** An attach gets the exec it waited for, or its failure. */
    method ExecAwaited(a: AttachId)
      requires Inv(View()) && Enabled(View(), Resuming(a))
      modifies this
      ensures Inv(View()) && View() == Step(old(View()), Resuming(a))
    {
      StepKeepsInv(View(), Resuming(a));
      hide Inv;
      var c := clients[a];
      if execs[Last(c.tried)].promise.Rejected? {
        clients := clients[a := SpawnFailed];
      } else {
        clients := clients[a := Capturing(c.tried, c.size)];
      }
    }

    /** The pane was captured: look at the slot again, and register, try once more or give up. */
    method PaneCaptured(a: AttachId, replay: Option<string>)
      requires Inv(View()) && Enabled(View(), Captured(a, replay))
      modifies this
      ensures Inv(View()) && View() == Step(old(View()), Captured(a, replay))
    {
      StepKeepsInv(View(), Captured(a, replay));
      hide Inv, Smallest;
      var c := clients[a];
      var e := Last(c.tried);
      if slot != Some(e) {
        if |c.tried| >= MAX_TRIES {
          clients := clients[a := GaveUp(c.tried)];
        } else {
          Acquire(a, c.tried, c.size);
        }
        return;
      }
      var x := execs[e];
      clients := clients[a := Attached(c.tried, |x.log|, match replay case Some(r) => [r] case None => [], true, [], [])];
      x := x.(listeners := x.listeners + {a});
      if c.size.Some? {
        x := x.(sizes := x.sizes[a := c.size.value]);
      }
      routed := routed + {a};
      var y := RecomputeSize(x);
      RecomputedIs(x, y);
      execs := execs[e := y];
    }

    /** The fan-out: every listener hears the chunk once. */
    method OnData(e: ExecId, chunk: string)
      requires Inv(View()) && Enabled(View(), Data(e, chunk))
      modifies this
      ensures Inv(View()) && View() == Step(old(View()), Data(e, chunk))
    {
      StepKeepsInv(View(), Data(e, chunk));
      assert ExecOk(View(), e);
      hide Inv, ExecOk, Hear;
      if chunk == "" {
        return;
      }
      execs := execs[e := execs[e].(log := execs[e].log + [chunk])];
      ghost var was := clients;
      var all := execs[e].listeners;
      var left := all;
      while left != {}
        invariant left <= all
        invariant clients == map a | a in was :: if a in all - left then Hear(was[a], chunk) else was[a]
        decreases left
        modifies this`clients
      {
        var a :| a in left;
        clients := clients[a := Hear(clients[a], chunk)];
        left := left - {a};
      }
      assert clients == Broadcast(old(View()), e, chunk).clients;
      assert View() == Broadcast(old(View()), e, chunk);
    }

    method FlushTail(a: AttachId)
      requires Inv(View()) && Enabled(View(), Flushing(a))
      modifies this
      ensures Inv(View()) && View() == Step(old(View()), Flushing(a))
    {
      StepKeepsInv(View(), Flushing(a));
      hide Inv;
      var c := clients[a];
      var sent := c.received + c.replay;
      for k := 0 to |c.tail|
        invariant sent == c.received + c.replay + c.tail[..k]
      {
        sent := sent + [c.tail[k]];
      }
      assert c.tail[..|c.tail|] == c.tail;
      clients := clients[a := c.(armed := false, received := sent, tail := [])];
      assert View() == Flush(old(View()), a);
    }

    method Resized(a: AttachId, e: ExecId, size: Size)
      requires Inv(View()) && Enabled(View(), Resizing(a, e, size))
      modifies this
      ensures Inv(View()) && View() == Step(old(View()), Resizing(a, e, size))
    {
      StepKeepsInv(View(), Resizing(a, e, size));
      hide Inv, Smallest;
      var x := execs[e];
      if a !in x.sizes {
        return;
      }
      x := x.(sizes := x.sizes[a := size]);
      var y := RecomputeSize(x);
      RecomputedIs(x, y);
      execs := execs[e := y];
    }

    method StartDetach(a: AttachId)
      requires Inv(View())
      modifies this
      ensures Inv(View()) && View() == Step(old(View()), Detaching(a))
    {
      StepKeepsInv(View(), Detaching(a));
      hide Inv;
      if a !in routed {
        return;
      }
      routed := routed - {a};
      if slot.Some? {
        detaching := detaching + {Detach(a, slot.value)};
      }
    }

    method FinishDetach(d: Detach)
      requires Inv(View()) && Enabled(View(), Detached(d))
      modifies this
      ensures Inv(View()) && View() == Step(old(View()), Detached(d))
    {
      StepKeepsInv(View(), Detached(d));
      hide Inv, Smallest;
      detaching := detaching - {d};
      var x := execs[d.exec];
      if x.promise.Rejected? {
        return;
      }
      x := x.(listeners := x.listeners - {d.client}, sizes := x.sizes - {d.client});
      if x.listeners == {} {
        if slot == Some(d.exec) {
          slot := None;
        }
        execs := execs[d.exec := x.(torn := true)];
      } else {
        var y := RecomputeSize(x);
        RecomputedIs(x, y);
        execs := execs[d.exec := y];
      }
    }
  }
}
