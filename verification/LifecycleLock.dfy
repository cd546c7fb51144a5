/**
 The per-session FIFO lock of backend/src/sessionLifecycleLock.ts.

 `LockState` is the abstract lock: who holds and who waits for each session, and
 what became of every call ever made. Its three steps are the three synchronous
 pieces of code that change the lock (acquire, a wait timer firing, release), so
 a run of the lock is any sequence of them. SessionLifecycleLock.dfy holds the
 class itself, proved to take these steps.
 */
module LifecycleLock {
  import opened Wrappers

  datatype SessionId = SessionId(uuid: string)

  /** Calls of `run` are numbered in order of arrival. */
  type CallId = nat

  datatype LifecycleOp =
    | Create | Start | Stop | Kill | Delete | DeleteHard
    | Recreate | RecreateResolve | Enable | Ports | ComposerSend | ComposerAdmin

  datatype Mode = Wait | Fail

  /** `Holding` lasts from the grant to the release; `Refused` is a SessionBusyError. */
  datatype Phase = Queued | Holding | Released | Refused {
    predicate Granted() { Holding? || Released? }

    predicate Done() { Released? || Refused? }
  }

  datatype Call = Call(sid: SessionId, op: LifecycleOp, phase: Phase)

  datatype Held = Held(holder: CallId, queue: seq<CallId>)

  datatype LockState = LockState(
    entries: map<SessionId, Held>,
    calls: map<CallId, Call>,
    next: CallId)

  const INITIAL := LockState(map[], map[], 0)

  // ----- The three atomic steps

  function Acquire(s: LockState, sid: SessionId, op: LifecycleOp, mode: Mode): LockState {
    var c := s.next;
    if sid !in s.entries then
      LockState(s.entries[sid := Held(c, [])], s.calls[c := Call(sid, op, Holding)], c + 1)
    else if mode == Fail then
      s.(calls := s.calls[c := Call(sid, op, Refused)], next := c + 1)
    else
      var e := s.entries[sid];
      s.(entries := s.entries[sid := e.(queue := e.queue + [c])],
         calls := s.calls[c := Call(sid, op, Queued)],
         next := c + 1)
  }

  function Without(q: seq<CallId>, c: CallId): seq<CallId> {
    if q == [] then [] else if q[0] == c then q[1..] else [q[0]] + Without(q[1..], c)
  }

  function TimeOut(s: LockState, c: CallId): LockState
    requires c in s.calls && s.calls[c].phase == Queued && s.calls[c].sid in s.entries
  {
    var sid := s.calls[c].sid;
    var e := s.entries[sid];
    s.(entries := s.entries[sid := e.(queue := Without(e.queue, c))],
       calls := s.calls[c := s.calls[c].(phase := Refused)])
  }

  function Release(s: LockState, sid: SessionId): LockState
    requires sid in s.entries && s.entries[sid].holder in s.calls
    requires s.entries[sid].queue != [] ==> s.entries[sid].queue[0] in s.calls
  {
    var e := s.entries[sid];
    var released := s.calls[e.holder := s.calls[e.holder].(phase := Released)];
    if e.queue == [] then
      s.(entries := s.entries - {sid}, calls := released)
    else
      var c := e.queue[0];
      s.(entries := s.entries[sid := Held(c, e.queue[1..])],
         calls := released[c := s.calls[c].(phase := Holding)])
  }

  // ----- The invariant

  ghost predicate Increasing(q: seq<nat>) {
    forall i, j :: 0 <= i < j < |q| ==> q[i] < q[j]
  }

  /** The entry names one holder, and only callers still waiting, in order of arrival. */
  ghost predicate EntryOk(s: LockState, sid: SessionId)
    requires sid in s.entries
  {
    var e := s.entries[sid];
    && e.holder in s.calls && s.calls[e.holder].sid == sid && s.calls[e.holder].phase == Holding
    && (forall i :: 0 <= i < |e.queue| ==>
          && e.queue[i] in s.calls && s.calls[e.queue[i]].sid == sid && s.calls[e.queue[i]].phase == Queued
          && e.holder < e.queue[i])
    && Increasing(e.queue)
  }

  /** A holder is the holder its session's entry names; a waiter is in that entry's queue. */
  ghost predicate CallOk(s: LockState, c: CallId)
    requires c in s.calls
  {
    && c < s.next
    && (s.calls[c].phase == Holding ==>
          s.calls[c].sid in s.entries && s.entries[s.calls[c].sid].holder == c)
    && (s.calls[c].phase == Queued ==>
          s.calls[c].sid in s.entries && c in s.entries[s.calls[c].sid].queue)
  }

  ghost predicate Inv(s: LockState) {
    && (forall sid :: sid in s.entries ==> EntryOk(s, sid))
    && (forall c :: c in s.calls ==> CallOk(s, c))
  }

  lemma {:induction false} WithoutFacts(q: seq<CallId>, c: CallId)
    requires Increasing(q)
    ensures Increasing(Without(q, c))
    ensures forall x :: x in Without(q, c) <==> x in q && x != c
  {
    if q == [] {
    } else if q[0] == c {
      assert forall x :: x in q <==> x == q[0] || x in q[1..];
    } else {
      WithoutFacts(q[1..], c);
      var w := Without(q[1..], c);
      assert forall x :: x in q <==> x == q[0] || x in q[1..];
      forall i, j | 0 <= i < j < |w| + 1 ensures ([q[0]] + w)[i] < ([q[0]] + w)[j] {
        if i == 0 {
          assert w[j - 1] in q[1..];
        }
      }
    }
  }

  lemma AcquireKeepsInv(s: LockState, sid: SessionId, op: LifecycleOp, mode: Mode)
    requires Inv(s)
    ensures Inv(Acquire(s, sid, op, mode))
  {
    var t := Acquire(s, sid, op, mode);
    forall c | c in s.calls ensures c < s.next {
      assert CallOk(s, c);
    }
    forall x | x in t.entries ensures EntryOk(t, x) {
      AcquireEntryOk(s, sid, op, mode, x);
    }
    forall c | c in t.calls ensures CallOk(t, c) {
      AcquireCallOk(s, sid, op, mode, c);
    }
  }

  lemma AcquireEntryOk(s: LockState, sid: SessionId, op: LifecycleOp, mode: Mode, x: SessionId)
    requires s.next !in s.calls
    requires forall c :: c in s.calls ==> c < s.next
    requires x in s.entries ==> EntryOk(s, x)
    requires x in Acquire(s, sid, op, mode).entries
    ensures EntryOk(Acquire(s, sid, op, mode), x)
  {
  }

  lemma AcquireCallOk(s: LockState, sid: SessionId, op: LifecycleOp, mode: Mode, c: CallId)
    requires s.next !in s.calls
    requires c in s.calls ==> CallOk(s, c)
    requires c in Acquire(s, sid, op, mode).calls
    ensures CallOk(Acquire(s, sid, op, mode), c)
  {
  }

  lemma TimeOutKeepsInv(s: LockState, c: CallId)
    requires Inv(s)
    requires c in s.calls && s.calls[c].phase == Queued && s.calls[c].sid in s.entries
    ensures Inv(TimeOut(s, c))
  {
    var t := TimeOut(s, c);
    var sid := s.calls[c].sid;
    assert EntryOk(s, sid);
    WithoutFacts(s.entries[sid].queue, c);
    forall x | x in t.entries ensures EntryOk(t, x) {
      assert EntryOk(s, x);
      if x == sid {
        TimeOutEntryOk(s, c);
      }
    }
    forall d | d in t.calls ensures CallOk(t, d) {
      assert CallOk(s, d);
    }
  }

  lemma TimeOutEntryOk(s: LockState, c: CallId)
    requires c in s.calls && s.calls[c].phase == Queued && s.calls[c].sid in s.entries
    requires EntryOk(s, s.calls[c].sid)
    ensures EntryOk(TimeOut(s, c), s.calls[c].sid)
  {
    var t := TimeOut(s, c);
    var sid := s.calls[c].sid;
    WithoutFacts(s.entries[sid].queue, c);
    var q := t.entries[sid].queue;
    forall i | 0 <= i < |q|
      ensures q[i] in t.calls && t.calls[q[i]].sid == sid && t.calls[q[i]].phase == Queued && t.entries[sid].holder < q[i]
    {
      assert q[i] in s.entries[sid].queue && q[i] != c;
    }
  }

  lemma ReleaseKeepsInv(s: LockState, sid: SessionId)
    requires Inv(s) && sid in s.entries
    ensures EntryOk(s, sid)
    ensures Inv(Release(s, sid))
  {
    assert EntryOk(s, sid);
    var t := Release(s, sid);
    forall x | x in t.entries ensures EntryOk(t, x) {
      assert EntryOk(s, x);
      ReleaseEntryOk(s, sid, x);
    }
    forall d | d in t.calls ensures CallOk(t, d) {
      assert CallOk(s, d);
      ReleaseCallOk(s, sid, d);
    }
  }

  lemma ReleaseEntryOk(s: LockState, sid: SessionId, x: SessionId)
    requires sid in s.entries && EntryOk(s, sid) && x in s.entries && EntryOk(s, x)
    requires x in Release(s, sid).entries
    ensures EntryOk(Release(s, sid), x)
  {
    if x == sid {
      var q := s.entries[sid].queue;
      assert forall i :: 0 <= i < |q[1..]| ==> q[1..][i] == q[i + 1] && q[0] < q[i + 1];
    }
  }

  lemma ReleaseCallOk(s: LockState, sid: SessionId, d: CallId)
    requires sid in s.entries && EntryOk(s, sid) && d in s.calls && CallOk(s, d)
    ensures CallOk(Release(s, sid), d)
  {
    var q := s.entries[sid].queue;
    if q != [] {
      assert forall x :: x in q <==> x == q[0] || x in q[1..];
    }
  }

  // ----- Runs

  datatype Event =
    | Acquiring(sid: SessionId, op: LifecycleOp, mode: Mode)
    | TimerFiring(call: CallId)
    | Releasing(sid: SessionId)

  /** A timer fires only for a caller still waiting; a release is by a holder. */
  ghost predicate Enabled(s: LockState, e: Event) {
    match e
    case Acquiring(_, _, _) => true
    case TimerFiring(c) => c in s.calls && s.calls[c].phase == Queued && s.calls[c].sid in s.entries
    case Releasing(sid) => sid in s.entries && EntryOk(s, sid)
  }

  ghost function Step(s: LockState, e: Event): LockState
    requires Enabled(s, e)
  {
    match e
    case Acquiring(sid, op, mode) => Acquire(s, sid, op, mode)
    case TimerFiring(c) => TimeOut(s, c)
    case Releasing(sid) => Release(s, sid)
  }

  ghost predicate IsRun(run: seq<LockState>, events: seq<Event>) {
    && |run| == |events| + 1
    && run[0] == INITIAL
    && forall i :: 0 <= i < |events| ==> Enabled(run[i], events[i]) && run[i + 1] == Step(run[i], events[i])
  }

  lemma StepKeepsInv(s: LockState, e: Event)
    requires Inv(s) && Enabled(s, e)
    ensures Inv(Step(s, e))
  {
    match e
    case Acquiring(sid, op, mode) => AcquireKeepsInv(s, sid, op, mode);
    case TimerFiring(c) => TimeOutKeepsInv(s, c);
    case Releasing(sid) => ReleaseKeepsInv(s, sid);
  }

  lemma {:induction false} ReachableInv(run: seq<LockState>, events: seq<Event>, n: nat)
    requires IsRun(run, events) && n < |run|
    ensures Inv(run[n])
    decreases n
  {
    if n > 0 {
      ReachableInv(run, events, n - 1);
      StepKeepsInv(run[n - 1], events[n - 1]);
    }
  }

  /** In every run no session ever has two holders, and the map holds exactly the held sessions. */
  lemma OneHolderPerSession(run: seq<LockState>, events: seq<Event>, n: nat)
    requires IsRun(run, events) && n < |run|
    ensures forall c, d :: Holds(run[n], c) && Holds(run[n], d) && run[n].calls[c].sid == run[n].calls[d].sid ==> c == d
    ensures forall sid :: sid in run[n].entries <==> exists c :: Holds(run[n], c) && run[n].calls[c].sid == sid
  {
    ReachableInv(run, events, n);
    var s := run[n];
    forall sid | sid in s.entries ensures exists c :: Holds(s, c) && s.calls[c].sid == sid {
      assert EntryOk(s, sid);
      assert Holds(s, s.entries[sid].holder);
    }
    forall c | Holds(s, c) ensures s.calls[c].sid in s.entries && s.entries[s.calls[c].sid].holder == c {
      assert CallOk(s, c);
    }
  }

  ghost predicate Holds(s: LockState, c: CallId) {
    c in s.calls && s.calls[c].phase == Holding
  }

  /** Every waiter sits in the queue of the entry that is in the map now, behind a holder that arrived before it. */
  lemma WaitersAreInTheMap(run: seq<LockState>, events: seq<Event>, n: nat, c: CallId)
    requires IsRun(run, events) && n < |run| && c in run[n].calls && run[n].calls[c].phase == Queued
    ensures var sid := run[n].calls[c].sid;
      sid in run[n].entries && c in run[n].entries[sid].queue && run[n].entries[sid].holder < c
  {
    ReachableInv(run, events, n);
    assert CallOk(run[n], c);
    assert EntryOk(run[n], run[n].calls[c].sid);
  }

  /** Once no call holds a lock, nothing is left in the map and nobody waits. */
  lemma EmptyWhenIdle(run: seq<LockState>, events: seq<Event>, n: nat)
    requires IsRun(run, events) && n < |run|
    requires forall c :: !Holds(run[n], c)
    ensures run[n].entries == map[]
    ensures forall c :: c in run[n].calls ==> run[n].calls[c].phase.Done()
  {
    OneHolderPerSession(run, events, n);
    ReachableInv(run, events, n);
    assert forall sid :: sid !in run[n].entries;
    forall c | c in run[n].calls ensures run[n].calls[c].phase.Done() {
      assert CallOk(run[n], c);
      assert !Holds(run[n], c);
    }
  }

  /** Whoever holds a session's lock, every earlier caller of that session has settled. */
  lemma EarlierCallersSettled(run: seq<LockState>, events: seq<Event>, n: nat, c: CallId, d: CallId)
    requires IsRun(run, events) && n < |run|
    requires Holds(run[n], c)
    requires d in run[n].calls && d < c && run[n].calls[d].sid == run[n].calls[c].sid
    ensures run[n].calls[d].phase.Done()
  {
    ReachableInv(run, events, n);
    var s := run[n];
    assert CallOk(s, c) && CallOk(s, d);
    assert EntryOk(s, s.calls[c].sid);
  }

  ghost predicate WaitsFor(s: LockState, c: CallId, sid: SessionId) {
    c in s.calls && s.calls[c].phase == Queued && s.calls[c].sid == sid
  }

  /** A release grants the lock to the earliest arrival still waiting, and to nobody else; without one the entry goes. */
  lemma ReleaseGrantsTheEarliest(run: seq<LockState>, events: seq<Event>, n: nat, sid: SessionId, c: CallId)
    requires IsRun(run, events) && n < |events| && events[n] == Releasing(sid)
    ensures Holds(run[n + 1], c) && run[n + 1].calls[c].sid == sid
      <==> WaitsFor(run[n], c, sid) && forall d :: WaitsFor(run[n], d, sid) ==> c <= d
    ensures sid !in run[n + 1].entries <==> forall d :: !WaitsFor(run[n], d, sid)
  {
    ReachableInv(run, events, n);
    OneHolderPerSession(run, events, n + 1);
    var s := run[n];
    assert Enabled(s, events[n]) && run[n + 1] == Release(s, sid);
    ReleaseGrants(s, sid, c);
  }

  lemma ReleaseGrants(s: LockState, sid: SessionId, c: CallId)
    requires Inv(s) && sid in s.entries
    ensures var t := Release(s, sid);
      && (Holds(t, c) && t.calls[c].sid == sid
        <==> WaitsFor(s, c, sid) && forall d :: WaitsFor(s, d, sid) ==> c <= d)
      && (sid !in t.entries <==> forall d :: !WaitsFor(s, d, sid))
  {
    assert EntryOk(s, sid);
    var q := s.entries[sid].queue;
    forall d ensures WaitsFor(s, d, sid) <==> d in q {
      assert d in s.calls ==> CallOk(s, d);
    }
    if q != [] {
      assert WaitsFor(s, q[0], sid);
      forall d | d in q ensures q[0] <= d {
        var i :| 0 <= i < |q| && q[i] == d;
      }
    }
    assert c in s.calls ==> CallOk(s, c);
  }

  /** What may become of a call: once granted or refused it never goes back. */
  ghost predicate MayBecome(before: Phase, after: Phase) {
    match before
    case Queued => true
    case Holding => after.Granted()
    case Released => after == Released
    case Refused => after == Refused
  }

  /** Every caller settles at most once: granted or refused, for good. */
  lemma {:induction false} SettledForGood(run: seq<LockState>, events: seq<Event>, m: nat, n: nat, c: CallId)
    requires IsRun(run, events) && m <= n < |run| && c in run[m].calls
    ensures c in run[n].calls
    ensures run[n].calls[c].sid == run[m].calls[c].sid && run[n].calls[c].op == run[m].calls[c].op
    ensures MayBecome(run[m].calls[c].phase, run[n].calls[c].phase)
    decreases n
  {
    if m < n {
      SettledForGood(run, events, m, n - 1, c);
      ReachableInv(run, events, n - 1);
      StepSettles(run[n - 1], events[n - 1], c);
    }
  }

  lemma StepSettles(s: LockState, e: Event, c: CallId)
    requires Inv(s) && Enabled(s, e) && c in s.calls
    ensures c in Step(s, e).calls
    ensures Step(s, e).calls[c].sid == s.calls[c].sid && Step(s, e).calls[c].op == s.calls[c].op
    ensures MayBecome(s.calls[c].phase, Step(s, e).calls[c].phase)
  {
    assert CallOk(s, c);
  }

  /** Grants follow arrival: if both of two callers of a session get its lock, the earlier one gets it first. */
  lemma GrantsFollowArrival(run: seq<LockState>, events: seq<Event>, m: nat, n: nat, c: CallId, d: CallId)
    requires IsRun(run, events) && m < |run| && n < |run|
    requires Holds(run[m], c) && Holds(run[n], d)
    requires c < d && run[m].calls[c].sid == run[n].calls[d].sid
    ensures m < n
  {
    if n <= m {
      SettledForGood(run, events, n, m, d);
      ReachableInv(run, events, n);
      ReachableInv(run, events, m);
      CallsNumbered(run, events, n, m, c);
      EarlierCallersSettled(run, events, n, d, c);
      SettledForGood(run, events, n, m, c);
    }
  }

  /** Numbers are given out in order of arrival. */
  lemma {:induction false} CallsNumbered(run: seq<LockState>, events: seq<Event>, m: nat, n: nat, c: CallId)
    requires IsRun(run, events) && m <= n < |run|
    ensures run[m].next <= run[n].next
    ensures c in run[n].calls && c < run[m].next ==> c in run[m].calls && run[m].calls[c].sid == run[n].calls[c].sid
    decreases n
  {
    if m < n {
      CallsNumbered(run, events, m, n - 1, c);
    }
  }

  // ----- Who waits

  ghost function Waiting(s: LockState): set<CallId> {
    set c | c in s.calls && s.calls[c].phase == Queued
  }

  lemma AcquireWaiting(s: LockState, sid: SessionId, op: LifecycleOp, mode: Mode)
    requires s.next !in s.calls
    ensures Waiting(Acquire(s, sid, op, mode))
      == Waiting(s) + if sid in s.entries && mode == Wait then {s.next} else {}
  {
  }

  lemma TimeOutWaiting(s: LockState, c: CallId)
    requires c in s.calls && s.calls[c].phase == Queued && s.calls[c].sid in s.entries
    ensures Waiting(TimeOut(s, c)) == Waiting(s) - {c}
  {
  }

  lemma ReleaseWaiting(s: LockState, sid: SessionId)
    requires sid in s.entries && EntryOk(s, sid)
    ensures Waiting(Release(s, sid))
      == Waiting(s) - if s.entries[sid].queue == [] then {} else {s.entries[sid].queue[0]}
  {
  }

  /** `Without` is the splice at the index where the caller is found. */
  lemma {:induction false} WithoutAt(q: seq<CallId>, c: CallId, i: nat)
    requires i < |q| && q[i] == c && c !in q[..i]
    ensures Without(q, c) == q[..i] + q[i + 1..]
  {
    if i > 0 {
      assert q[0] == q[..i][0];
      assert forall x :: x in q[1..][..i - 1] ==> x in q[..i];
      WithoutAt(q[1..], c, i - 1);
      assert q[1..][..i - 1] == q[1..i] && q[1..][i - 1 + 1..] == q[i + 1..];
    }
  }

  /** The operation a call asked for; unchanged by every later step. */
  ghost function OpOf(s: LockState, c: CallId): LifecycleOp {
    if c in s.calls then s.calls[c].op else Create
  }

  /** What a step on one session leaves alone: other entries, and what each call asked for. */
  ghost predicate Frames(s: LockState, t: LockState, sid: SessionId) {
    && (forall x :: x != sid ==> (x in t.entries <==> x in s.entries))
    && (forall x :: x != sid && x in s.entries ==> t.entries[x] == s.entries[x])
    && (forall c :: c in s.calls ==> c in t.calls && t.calls[c].sid == s.calls[c].sid && t.calls[c].op == s.calls[c].op)
  }

  lemma AcquireFrames(s: LockState, sid: SessionId, op: LifecycleOp, mode: Mode)
    requires s.next !in s.calls
    ensures Frames(s, Acquire(s, sid, op, mode), sid)
  {
  }

  lemma ReleaseFrames(s: LockState, sid: SessionId)
    requires sid in s.entries && EntryOk(s, sid)
    ensures Frames(s, Release(s, sid), sid)
  {
  }

  lemma TimeOutFrames(s: LockState, c: CallId)
    requires c in s.calls && s.calls[c].phase == Queued && s.calls[c].sid in s.entries
    ensures Frames(s, TimeOut(s, c), s.calls[c].sid)
  {
  }

  lemma AcquireFacts(s: LockState, sid: SessionId, op: LifecycleOp, mode: Mode)
    requires Inv(s)
    ensures s.next !in s.calls
    ensures Inv(Acquire(s, sid, op, mode))
    ensures Waiting(Acquire(s, sid, op, mode)) == Waiting(s) + if sid in s.entries && mode == Wait then {s.next} else {}
    ensures Frames(s, Acquire(s, sid, op, mode), sid)
  {
    AcquireKeepsInv(s, sid, op, mode);
    forall d | d in s.calls ensures d < s.next {
      assert CallOk(s, d);
    }
    AcquireWaiting(s, sid, op, mode);
    AcquireFrames(s, sid, op, mode);
  }

  /**
   What each of the three steps answers. A caller gets the lock exactly when nobody has it, and otherwise is refused or joins
   the end of the queue, as it asked; a timeout refuses its caller alone; a release ends the holder's call.
   */
  lemma StepsAnswer(s: LockState, sid: SessionId, op: LifecycleOp, mode: Mode, c: CallId)
    requires Inv(s)
    ensures var t := Acquire(s, sid, op, mode);
      && t.next == s.next + 1
      && t.calls == s.calls[s.next := Call(sid, op, if sid !in s.entries then Holding else if mode == Fail then Refused else Queued)]
      && (sid in s.entries && mode == Fail ==> t.entries == s.entries)
      && (sid in s.entries && mode == Wait ==>
        t.entries[sid].holder == s.entries[sid].holder && t.entries[sid].queue == s.entries[sid].queue + [s.next])
      && (sid !in s.entries ==> t.entries[sid] == Held(s.next, []))
    ensures c in s.calls && s.calls[c].phase == Queued && s.calls[c].sid in s.entries ==>
      var t := TimeOut(s, c);
      && t.calls == s.calls[c := s.calls[c].(phase := Refused)] && t.next == s.next
      && t.entries[s.calls[c].sid].holder == s.entries[s.calls[c].sid].holder
      && forall d :: d in t.entries[s.calls[c].sid].queue <==> d in s.entries[s.calls[c].sid].queue && d != c
    ensures sid in s.entries ==>
      && s.entries[sid].holder in s.calls && (s.entries[sid].queue != [] ==> s.entries[sid].queue[0] in s.calls)
      && Release(s, sid).next == s.next && Release(s, sid).calls.Keys == s.calls.Keys
      && Release(s, sid).calls[s.entries[sid].holder].phase == Released
  {
    if sid in s.entries {
      assert EntryOk(s, sid);
    }
    if c in s.calls && s.calls[c].sid in s.entries {
      assert EntryOk(s, s.calls[c].sid);
      WithoutFacts(s.entries[s.calls[c].sid].queue, c);
    }
    hide Inv;
  }

  lemma TimeOutFacts(s: LockState, c: CallId)
    requires Inv(s) && c in Waiting(s)
    ensures s.calls[c].sid in s.entries && c in s.entries[s.calls[c].sid].queue
    ensures Inv(TimeOut(s, c))
    ensures Waiting(TimeOut(s, c)) == Waiting(s) - {c}
    ensures Frames(s, TimeOut(s, c), s.calls[c].sid)
  {
    assert CallOk(s, c);
    TimeOutKeepsInv(s, c);
    TimeOutWaiting(s, c);
    TimeOutFrames(s, c);
  }

  lemma ReleaseFacts(s: LockState, sid: SessionId)
    requires Inv(s) && sid in s.entries
    ensures EntryOk(s, sid)
    ensures Inv(Release(s, sid))
    ensures Waiting(Release(s, sid)) == Waiting(s) - if s.entries[sid].queue == [] then {} else {s.entries[sid].queue[0]}
    ensures Frames(s, Release(s, sid), sid)
    ensures s.entries[sid].queue == [] ==> forall c :: c in Waiting(s) ==> s.calls[c].sid != sid
  {
    ReleaseKeepsInv(s, sid);
    ReleaseWaiting(s, sid);
    ReleaseFrames(s, sid);
    forall c | c in Waiting(s) && s.calls[c].sid == sid ensures s.entries[sid].queue != [] {
      assert CallOk(s, c);
    }
  }
}
