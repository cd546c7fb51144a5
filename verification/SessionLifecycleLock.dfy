/**
 The class of backend/src/sessionLifecycleLock.ts, with its map of entries and its
 wait timers, proved against the abstract lock of LifecycleLock.dfy.
 */
module SessionLifecycleLocks {
  import opened Wrappers
  import opened LifecycleLock

  /** A queued caller, told apart from every other by its number. */
  datatype Waiter = Waiter(id: CallId, op: LifecycleOp)

  /** `id` tells one entry of a session from a later one. */
  datatype Entry = Entry(id: CallId, holder: LifecycleOp, queue: seq<Waiter>)

  /** An armed wait timer: its callback captured the entry its caller joined. */
  datatype Timer = Timer(sid: SessionId, entryId: CallId, waiter: Waiter)

  datatype Acquired = Got | Busy(heldBy: LifecycleOp) | MustWait(waiter: Waiter)

  /** A queue stands for a queue of calls when it lists them with the operations they asked for. */
  ghost predicate Represents(queue: seq<Waiter>, calls: seq<CallId>, s: LockState) {
    && |queue| == |calls|
    && forall i :: 0 <= i < |queue| ==> calls[i] in s.calls && queue[i] == Waiter(calls[i], OpOf(s, calls[i]))
  }

  /** An entry names its holder's operation and lists exactly its session's waiters. */
  ghost predicate EntryMatches(e: Entry, h: Held, s: LockState) {
    && h.holder in s.calls && e.holder == OpOf(s, h.holder)
    && Represents(e.queue, h.queue, s)
  }

  /** The entry an armed timer captured is the one now in the map for its caller's session. */
  ghost predicate TimerMatches(t: Timer, c: CallId, entries: map<SessionId, Entry>, s: LockState) {
    && c in s.calls && t.waiter == Waiter(c, OpOf(s, c))
    && t.sid == s.calls[c].sid
    && t.sid in entries && t.entryId == entries[t.sid].id
  }

  /** The waiter a release grants. */
  ghost function FirstOf(calls: seq<CallId>, s: LockState): Option<Waiter> {
    if calls == [] then None else Some(Waiter(calls[0], OpOf(s, calls[0])))
  }

  lemma StillMatches(e: Entry, h: Held, s: LockState, t: LockState, sid: SessionId)
    requires EntryMatches(e, h, s) && Frames(s, t, sid)
    ensures EntryMatches(e, h, t)
  {
  }

  lemma TimerStillMatches(m: Timer, c: CallId, entries: map<SessionId, Entry>, s: LockState, t: LockState, sid: SessionId)
    requires TimerMatches(m, c, entries, s) && Frames(s, t, sid)
    ensures TimerMatches(m, c, entries, t)
  {
  }

  lemma NewMatches(s: LockState, c: CallId, op: LifecycleOp)
    requires c in s.calls && OpOf(s, c) == op
    ensures EntryMatches(Entry(c, op, []), Held(c, []), s)
  {
  }

  lemma JoinMatches(e: Entry, h: Held, s: LockState, c: CallId, op: LifecycleOp)
    requires EntryMatches(e, h, s) && c in s.calls && OpOf(s, c) == op
    ensures EntryMatches(e.(queue := e.queue + [Waiter(c, op)]), h.(queue := h.queue + [c]), s)
  {
  }

  lemma SpliceMatches(e: Entry, h: Held, s: LockState, i: nat)
    requires EntryMatches(e, h, s) && i < |e.queue|
    ensures EntryMatches(e.(queue := e.queue[..i] + e.queue[i + 1..]), h.(queue := h.queue[..i] + h.queue[i + 1..]), s)
  {
  }

  lemma GrantMatches(e: Entry, h: Held, s: LockState)
    requires EntryMatches(e, h, s) && e.queue != []
    ensures EntryMatches(e.(holder := e.queue[0].op, queue := e.queue[1..]), Held(h.queue[0], h.queue[1..]), s)
  {
  }

  lemma NewTimerMatches(t: Timer, entries: map<SessionId, Entry>, s: LockState)
    requires t.waiter.id in s.calls && t.waiter.op == OpOf(s, t.waiter.id) && t.sid == s.calls[t.waiter.id].sid
    requires t.sid in entries && t.entryId == entries[t.sid].id
    ensures TimerMatches(t, t.waiter.id, entries, s)
  {
  }

  /** The fields of the class stand for an abstract lock. */
  ghost predicate StandsFor(entries: map<SessionId, Entry>, timers: map<CallId, Timer>, next: CallId, s: LockState) {
    && Inv(s) && next == s.next
    && entries.Keys == s.entries.Keys
    && timers.Keys == Waiting(s)
    && (forall x :: x in entries ==> EntryMatches(entries[x], s.entries[x], s))
    && (forall c :: c in timers ==> TimerMatches(timers[c], c, entries, s))
  }

  /** What entries and timers stand for is the same after a step on `sid`. */
  lemma CarryOver(entries: map<SessionId, Entry>, timers: map<CallId, Timer>, s: LockState, t: LockState, sid: SessionId)
    requires StandsFor(entries, timers, s.next, s) && Frames(s, t, sid)
    ensures forall x :: x in entries ==> EntryMatches(entries[x], s.entries[x], t)
    ensures forall c :: c in timers ==> TimerMatches(timers[c], c, entries, t)
  {
    hide EntryMatches, TimerMatches, Inv, Waiting, Frames;
    forall x | x in entries ensures EntryMatches(entries[x], s.entries[x], t) {
      StillMatches(entries[x], s.entries[x], s, t, sid);
    }
    forall c | c in timers ensures TimerMatches(timers[c], c, entries, t) {
      TimerStillMatches(timers[c], c, entries, s, t, sid);
    }
  }

  /** A step that replaces one entry, keeping its identity, and some timers. */
  lemma Replaced(entries: map<SessionId, Entry>, timers: map<CallId, Timer>, s: LockState, t: LockState,
                 sid: SessionId, e: Entry, timers': map<CallId, Timer>)
    requires StandsFor(entries, timers, s.next, s) && Frames(s, t, sid) && Inv(t)
    requires sid in entries && sid in t.entries
    requires e.id == entries[sid].id && EntryMatches(e, t.entries[sid], t)
    requires timers'.Keys == Waiting(t)
    requires forall c :: c in timers' ==> (c in timers && timers'[c] == timers[c]) || TimerMatches(timers'[c], c, entries, t)
    ensures StandsFor(entries[sid := e], timers', t.next, t)
  {
    hide EntryMatches, TimerMatches, Inv, Waiting;
    CarryOver(entries, timers, s, t, sid);
    var after := entries[sid := e];
    SameIds(entries, timers', e, sid, t);
    assert after.Keys == t.entries.Keys;
    forall x | x in after ensures EntryMatches(after[x], t.entries[x], t) {
    }
  }

  lemma SameIds(entries: map<SessionId, Entry>, timers: map<CallId, Timer>, e: Entry, sid: SessionId, t: LockState)
    requires forall c :: c in timers ==> TimerMatches(timers[c], c, entries, t)
    requires sid in entries ==> e.id == entries[sid].id
    ensures forall c :: c in timers ==> TimerMatches(timers[c], c, entries[sid := e], t)
  {
  }

  lemma SameKeys(entries: map<SessionId, Entry>, timers: map<CallId, Timer>, next: CallId, s: LockState)
    requires StandsFor(entries, timers, next, s)
    ensures entries.Keys == s.entries.Keys && next == s.next
  {
    hide EntryMatches, TimerMatches, Inv;
  }

  lemma StandsInv(entries: map<SessionId, Entry>, timers: map<CallId, Timer>, next: CallId, s: LockState)
    requires StandsFor(entries, timers, next, s)
    ensures Inv(s)
  {
    hide EntryMatches, TimerMatches, Inv;
  }

  lemma TimerKnown(entries: map<SessionId, Entry>, timers: map<CallId, Timer>, next: CallId, s: LockState, c: CallId)
    requires StandsFor(entries, timers, next, s) && c in timers
    ensures TimerMatches(timers[c], c, entries, s) && c in Waiting(s) && next == s.next
    ensures c in s.calls && s.calls[c].sid in entries && s.calls[c].sid in s.entries
    ensures EntryMatches(entries[s.calls[c].sid], s.entries[s.calls[c].sid], s)
  {
    TimeOutFacts(s, c);
    assert EntryMatches(entries[timers[c].sid], s.entries[timers[c].sid], s);
    hide Inv;
  }

  class SessionLifecycleLock {
    var entries: map<SessionId, Entry>
    var timers: map<CallId, Timer>
    var next: CallId

    /** The abstract lock these fields stand for. */
    ghost var view: LockState

    ghost predicate Valid()
      reads this
    {
      StandsFor(entries, timers, next, view)
    }

    constructor ()
      ensures Valid() && view == INITIAL
    {
      entries, timers, next, view := map[], map[], 0, INITIAL;
    }

    method HeldBy(sid: SessionId) returns (op: Option<LifecycleOp>)
      requires Valid()
      ensures op == if sid in view.entries then Some(OpOf(view, view.entries[sid].holder)) else None
    {
      if sid in entries {
        assert EntryMatches(entries[sid], view.entries[sid], view);
        op := Some(entries[sid].holder);
      } else {
        op := None;
      }
    }

    method Acquire(sid: SessionId, op: LifecycleOp, mode: Mode) returns (r: Acquired)
      requires Valid()
      modifies this
      ensures Valid() && view == LifecycleLock.Acquire(old(view), sid, op, mode)
      ensures r == if sid !in old(entries) then Got
                   else if mode == Fail then Busy(old(entries)[sid].holder)
                   else MustWait(Waiter(old(next), op))
      ensures r.MustWait? ==> old(next) in timers
    {
      hide StandsFor, LifecycleLock.Acquire;
      SameKeys(entries, timers, next, view);
      AcquireStands(entries, timers, view, sid, op, mode);
      if sid !in entries {
        entries := entries[sid := Entry(next, op, [])];
        r := Got;
      } else if mode == Fail {
        r := Busy(entries[sid].holder);
      } else {
        var w := Waiter(next, op);
        timers := timers[next := Timer(sid, entries[sid].id, w)];
        entries := entries[sid := entries[sid].(queue := entries[sid].queue + [w])];
        r := MustWait(w);
      }
      next := next + 1;
      view := LifecycleLock.Acquire(view, sid, op, mode);
    }

    /** The callback of an armed wait timer: leave the queue and refuse the caller. */
    method TimerFires(timer: Timer) returns (heldBy: Option<LifecycleOp>)
      requires Valid() && timer.waiter.id in timers && timers[timer.waiter.id] == timer
      modifies this
      ensures var c := timer.waiter.id;
        && c in old(view).calls && old(view).calls[c].phase == Queued && old(view).calls[c].sid in old(view).entries
        && Valid() && view == TimeOut(old(view), c)
      ensures timer.sid in old(entries) && heldBy == Some(old(entries)[timer.sid].holder)
    {
      hide StandsFor, TimeOut, EntryMatches;
      ghost var s, c := view, timer.waiter.id;
      TimerKnown(entries, timers, next, s, c);
      TimeOutFacts(s, c) by { SameKeys(entries, timers, next, s); StandsInv(entries, timers, next, s); }
      var e := entries[timer.sid];
      var i := IndexOf(e, timer.waiter, s.entries[timer.sid], s);
      TimeOutStands(entries, timers, s, c, i);
      entries := entries[timer.sid := e.(queue := e.queue[..i] + e.queue[i + 1..])];
      timers := timers - {timer.waiter.id};
      heldBy := Some(e.holder);
      view := TimeOut(s, c);
    }

    /** The holder is done: hand the lock to the next waiter, or drop the entry. */
    method Release(sid: SessionId) returns (granted: Option<Waiter>)
      requires Valid()
      modifies this
      ensures Valid()
      ensures sid !in old(entries) ==> view == old(view) && granted == None
      ensures sid in old(entries) ==>
        && sid in old(view).entries && EntryOk(old(view), sid) && view == LifecycleLock.Release(old(view), sid)
        && granted == FirstOf(old(view).entries[sid].queue, old(view))
    {
      if sid !in entries {
        return None;
      }
      hide Inv, EntryOk;
      ReleaseStands(entries, timers, view, sid);
      hide StandsFor, LifecycleLock.Release, FirstOf;
      var e := entries[sid];
      if e.queue == [] {
        entries := entries - {sid};
        granted := None;
      } else {
        var w := e.queue[0];
        entries := entries[sid := e.(holder := w.op, queue := e.queue[1..])];
        timers := timers - {w.id};
        granted := Some(w);
      }
      view := LifecycleLock.Release(view, sid);
    }
  }

  method IndexOf(e: Entry, w: Waiter, ghost h: Held, ghost s: LockState) returns (i: nat)
    requires EntryMatches(e, h, s) && w.id in h.queue && w.op == OpOf(s, w.id)
    ensures i < |e.queue| && i < |h.queue| && h.queue[i] == w.id && w.id !in h.queue[..i]
  {
    i := 0;
    while i < |e.queue| && e.queue[i] != w
      invariant i <= |e.queue| && w.id !in h.queue[..i]
    {
      i := i + 1;
    }
    assert h.queue == h.queue[..i] + h.queue[i..];
  }

  lemma AcquireStands(entries: map<SessionId, Entry>, timers: map<CallId, Timer>, s: LockState,
                      sid: SessionId, op: LifecycleOp, mode: Mode)
    requires StandsFor(entries, timers, s.next, s)
    ensures sid in entries <==> sid in s.entries
    ensures var t, c := Acquire(s, sid, op, mode), s.next;
      if sid !in entries then StandsFor(entries[sid := Entry(c, op, [])], timers, c + 1, t)
      else if mode == Fail then StandsFor(entries, timers, c + 1, t)
      else
        var w := Waiter(c, op);
        StandsFor(entries[sid := entries[sid].(queue := entries[sid].queue + [w])],
                  timers[c := Timer(sid, entries[sid].id, w)], c + 1, t)
  {
    AcquireFacts(s, sid, op, mode);
    if sid !in entries {
      InstallStands(entries, timers, s, sid, op, mode);
    } else if mode == Fail {
      CarryOver(entries, timers, s, Acquire(s, sid, op, mode), sid);
      hide EntryMatches, TimerMatches, Inv, Waiting, Frames;
    } else {
      EnqueueStands(entries, timers, s, sid, op);
    }
  }

  lemma InstallStands(entries: map<SessionId, Entry>, timers: map<CallId, Timer>, s: LockState,
                      sid: SessionId, op: LifecycleOp, mode: Mode)
    requires StandsFor(entries, timers, s.next, s) && sid !in entries
    ensures StandsFor(entries[sid := Entry(s.next, op, [])], timers, s.next + 1, Acquire(s, sid, op, mode))
  {
    hide EntryMatches, TimerMatches, Inv, Waiting, Frames;
    var t, e := Acquire(s, sid, op, mode), Entry(s.next, op, []);
    AcquireFacts(s, sid, op, mode);
    CarryOver(entries, timers, s, t, sid);
    NewMatches(t, s.next, op);
    SameIds(entries, timers, e, sid, t);
    assert entries[sid := e].Keys == t.entries.Keys;
  }

  lemma EnqueueStands(entries: map<SessionId, Entry>, timers: map<CallId, Timer>, s: LockState, sid: SessionId, op: LifecycleOp)
    requires StandsFor(entries, timers, s.next, s) && sid in entries
    ensures var w := Waiter(s.next, op);
      StandsFor(entries[sid := entries[sid].(queue := entries[sid].queue + [w])],
                timers[s.next := Timer(sid, entries[sid].id, w)], s.next + 1, Acquire(s, sid, op, Wait))
  {
    hide EntryMatches, TimerMatches, Inv, Waiting, Frames;
    var t, w := Acquire(s, sid, op, Wait), Waiter(s.next, op);
    AcquireFacts(s, sid, op, Wait);
    StillMatches(entries[sid], s.entries[sid], s, t, sid);
    JoinMatches(entries[sid], s.entries[sid], t, s.next, op);
    NewTimerMatches(Timer(sid, entries[sid].id, w), entries, t);
    Replaced(entries, timers, s, t, sid, entries[sid].(queue := entries[sid].queue + [w]),
             timers[s.next := Timer(sid, entries[sid].id, w)]);
  }

  lemma TimeOutStands(entries: map<SessionId, Entry>, timers: map<CallId, Timer>, s: LockState, c: CallId, i: nat)
    requires StandsFor(entries, timers, s.next, s) && c in Waiting(s)
    requires s.calls[c].sid in entries && s.calls[c].sid in s.entries
    requires var q := s.entries[s.calls[c].sid].queue; i < |q| && q[i] == c && c !in q[..i]
    ensures var sid := s.calls[c].sid; var e := entries[sid];
      && i < |e.queue|
      && StandsFor(entries[sid := e.(queue := e.queue[..i] + e.queue[i + 1..])], timers - {c}, s.next, TimeOut(s, c))
  {
    var sid, t := s.calls[c].sid, TimeOut(s, c);
    var e, h := entries[sid], s.entries[sid];
    assert EntryMatches(e, h, s);
    TimeOutFacts(s, c);
    WithoutAt(h.queue, c, i);
    StillMatches(e, h, s, t, sid);
    SpliceMatches(e, h, t, i);
    hide EntryMatches, TimerMatches, Inv, Waiting, Frames;
    Replaced(entries, timers, s, t, sid, e.(queue := e.queue[..i] + e.queue[i + 1..]), timers - {c});
  }

  lemma ReleaseStands(entries: map<SessionId, Entry>, timers: map<CallId, Timer>, s: LockState, sid: SessionId)
    requires StandsFor(entries, timers, s.next, s) && sid in entries
    ensures sid in s.entries && EntryOk(s, sid)
    ensures var e, t := entries[sid], Release(s, sid);
      if e.queue == [] then
        FirstOf(s.entries[sid].queue, s) == None && StandsFor(entries - {sid}, timers, s.next, t)
      else
        && FirstOf(s.entries[sid].queue, s) == Some(e.queue[0])
        && StandsFor(entries[sid := e.(holder := e.queue[0].op, queue := e.queue[1..])], timers - {e.queue[0].id}, s.next, t)
  {
    ReleaseFacts(s, sid);
    var e, h, t := entries[sid], s.entries[sid], Release(s, sid);
    assert EntryMatches(e, h, s);
    if e.queue == [] {
      ReleaseLast(entries, timers, s, sid);
    } else {
      StillMatches(e, h, s, t, sid);
      GrantMatches(e, h, t);
      hide EntryMatches, TimerMatches, Inv, Waiting, Frames;
      Replaced(entries, timers, s, t, sid, e.(holder := e.queue[0].op, queue := e.queue[1..]), timers - {e.queue[0].id});
    }
  }

  lemma ReleaseLast(entries: map<SessionId, Entry>, timers: map<CallId, Timer>, s: LockState, sid: SessionId)
    requires StandsFor(entries, timers, s.next, s) && sid in entries && sid in s.entries && EntryOk(s, sid)
    requires s.entries[sid].queue == [] && Inv(Release(s, sid)) && Waiting(Release(s, sid)) == Waiting(s)
    requires Frames(s, Release(s, sid), sid)
    requires forall c :: c in Waiting(s) ==> s.calls[c].sid != sid
    ensures StandsFor(entries - {sid}, timers, s.next, Release(s, sid))
  {
    var t := Release(s, sid);
    CarryOver(entries, timers, s, t, sid);
    hide EntryMatches, Inv, EntryOk;
    forall c | c in timers ensures TimerMatches(timers[c], c, entries - {sid}, t) {
      assert TimerMatches(timers[c], c, entries, s) && TimerMatches(timers[c], c, entries, t);
    }
    assert (entries - {sid}).Keys == t.entries.Keys;
  }
}
