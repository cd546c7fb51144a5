/**
 Uploads into a session's directory (writeUploads and writeUploadsImpl of backend/src/dockerManager.ts):
 a lock made of chained promises, and a quota checked under it.

 Sessions share neither locks nor directories, so one session is modelled. Every `await` ends a step.
 `quota` is UPLOAD_QUOTA_BYTES. Temporary files keep their size once the request body was received.
 */
module Uploads {
  import opened Wrappers

  datatype FileName = FileName(name: string)

  type Dir = map<FileName, nat>

  // ----- Sizes

  ghost function Total(d: Dir): nat
    decreases |d|
  {
    if d == map[] then 0
    else
      var n :| n in d;
      d[n] + Total(d - {n})
  }

  lemma {:induction false} TotalAt(d: Dir, n: FileName)
    requires n in d
    ensures Total(d) == d[n] + Total(d - {n})
    decreases |d|
  {
    var m :| m in d && Total(d) == d[m] + Total(d - {m});
    if m != n {
      TotalAt(d - {m}, n);
      TotalAt(d - {n}, m);
      assert d - {m} - {n} == d - {n} - {m};
    }
  }

  lemma TotalPut(d: Dir, n: FileName, size: nat)
    ensures Total(d[n := size]) == Total(d - {n}) + size
    ensures Total(d - {n}) <= Total(d)
  {
    TotalAt(d[n := size], n);
    assert d[n := size] - {n} == d - {n};
    if n in d {
      TotalAt(d, n);
    } else {
      assert d - {n} == d;
    }
  }

  /** The files of the directory among those names. */
  ghost function Among(d: Dir, names: set<FileName>): Dir {
    map n | n in d && n in names :: d[n]
  }

  function Sum(sizes: seq<nat>): nat {
    if sizes == [] then 0 else sizes[0] + Sum(sizes[1..])
  }

  /** The directory after files of those sizes were renamed to those names, one after another. */
  function Placed(d: Dir, names: seq<FileName>, sizes: seq<nat>): Dir
    requires |names| == |sizes|
    decreases |names|
  {
    if names == [] then d
    else Placed(d, names[..|names| - 1], sizes[..|names| - 1])[names[|names| - 1] := sizes[|names| - 1]]
  }

  lemma {:induction false} PlacedWeighs(d: Dir, names: seq<FileName>, sizes: seq<nat>)
    requires |names| == |sizes|
    ensures Total(Placed(d, names, sizes)) <= Total(d) + Sum(sizes)
    decreases |names|
  {
    if names != [] {
      var n := |names| - 1;
      PlacedWeighs(d, names[..n], sizes[..n]);
      TotalPut(Placed(d, names[..n], sizes[..n]), names[n], sizes[n]);
      assert sizes == sizes[..n] + [sizes[n]];
      SumSnoc(sizes[..n], sizes[n]);
    }
  }

  lemma {:induction false} SumSnoc(sizes: seq<nat>, x: nat)
    ensures Sum(sizes + [x]) == Sum(sizes) + x
  {
    if sizes != [] {
      SumSnoc(sizes[1..], x);
      assert (sizes + [x])[1..] == sizes[1..] + [x];
    }
  }

  lemma {:induction false} SumPrefix(sizes: seq<nat>, k: nat)
    requires k <= |sizes|
    ensures Sum(sizes[..k]) <= Sum(sizes)
    decreases |sizes|
  {
    if k < |sizes| {
      var n := |sizes| - 1;
      assert sizes == sizes[..n] + [sizes[n]];
      SumSnoc(sizes[..n], sizes[n]);
      SumPrefix(sizes[..n], k);
      assert sizes[..n][..k] == sizes[..k];
    } else {
      assert sizes[..k] == sizes;
    }
  }

  lemma PlacedNext(d: Dir, names: seq<FileName>, sizes: seq<nat>, k: nat)
    requires k < |names| == |sizes|
    ensures Placed(d, names[..k + 1], sizes[..k + 1]) == Placed(d, names[..k], sizes[..k])[names[k] := sizes[k]]
  {
    assert names[..k + 1][..k] == names[..k] && sizes[..k + 1][..k] == sizes[..k];
  }

  /** Names drawn afresh: none is in the directory, and no two are alike. */
  ghost predicate FreshNames(d: Dir, names: seq<FileName>) {
    && (forall i :: 0 <= i < |names| ==> names[i] !in d)
    && forall i, j :: 0 <= i < j < |names| ==> names[i] != names[j]
  }

  lemma {:induction false} PlacedNames(d: Dir, names: seq<FileName>, sizes: seq<nat>)
    requires |names| == |sizes|
    ensures forall n :: n in Placed(d, names, sizes) ==> n in d || n in names
    decreases |names|
  {
    if names != [] {
      var n := |names| - 1;
      PlacedNames(d, names[..n], sizes[..n]);
      assert forall m :: m in names[..n] ==> m in names;
      assert names[n] in names;
    }
  }

  /** Files moved to names that differ are there under those names with their sizes; under other names nothing changes. */
  lemma {:induction false} PlacedAre(d: Dir, names: seq<FileName>, sizes: seq<nat>, n: FileName)
    requires |names| == |sizes| && forall i, j :: 0 <= i < j < |names| ==> names[i] != names[j]
    ensures n in Placed(d, names, sizes) <==> n in d || n in names
    ensures forall i :: 0 <= i < |names| && names[i] == n ==> n in Placed(d, names, sizes) && Placed(d, names, sizes)[n] == sizes[i]
    ensures n !in names && n in d ==> Placed(d, names, sizes)[n] == d[n]
    decreases |names|
  {
    if names != [] {
      var k := |names| - 1;
      PlacedAre(d, names[..k], sizes[..k], n);
      assert names == names[..k] + [names[k]];
      assert n in names <==> n in names[..k] || n == names[k];
      forall i | 0 <= i < |names| && names[i] == n
        ensures n in Placed(d, names, sizes) && Placed(d, names, sizes)[n] == sizes[i]
      {
        assert i < k ==> names[..k][i] == n && sizes[..k][i] == sizes[i];
      }
    }
  }

  lemma {:induction false} PlacedFresh(d: Dir, names: seq<FileName>, sizes: seq<nat>)
    requires |names| == |sizes| && FreshNames(d, names)
    ensures Total(Placed(d, names, sizes)) == Total(d) + Sum(sizes)
    decreases |names|
  {
    hide Total, Sum;
    if names == [] {
      NothingWeighs();
    } else {
      var n := |names| - 1;
      var before := Placed(d, names[..n], sizes[..n]);
      PlacedFresh(d, names[..n], sizes[..n]);
      PlacedNames(d, names[..n], sizes[..n]);
      assert names[n] !in before;
      assert before - {names[n]} == before;
      TotalPut(before, names[n], sizes[n]);
      assert sizes == sizes[..n] + [sizes[n]];
      SumSnoc(sizes[..n], sizes[n]);
    }
  }

  lemma NothingWeighs()
    ensures Sum([]) == 0
  {
  }

  // ----- The calls

  /**
   `left` are the entries readdir returned that were not yet looked at, `used` what those looked at weigh,
   and `moved` how many of the call's files are in the directory.
   */
  datatype Phase =
    | Waiting
    | Scanning(left: set<FileName>, used: nat)
    | Moving(moved: nat)
    | Finished

  /** `prior` is the call whose lock was found in the map. The call's own promise resolves when it has finished. */
  datatype Call = Call(files: seq<nat>, prior: Option<nat>, phase: Phase)

  /** `lock` is the call whose chained promise is in the map. Calls are numbered in order of arrival. */
  datatype State = State(dir: Dir, calls: seq<Call>, lock: Option<nat>)

  /** The promise a call put into the map: its own, chained behind the one it found there. */
  predicate Resolved(calls: seq<Call>, c: nat)
    requires c < |calls|
    decreases c
  {
    && calls[c].phase.Finished?
    && (calls[c].prior.Some? ==> calls[c].prior.value < c && Resolved(calls, calls[c].prior.value))
  }

  predicate Running(p: Phase) {
    p.Scanning? || p.Moving?
  }

  function SetPhase(s: State, c: nat, p: Phase): State
    requires c < |s.calls|
  {
    s.(calls := s.calls[c := s.calls[c].(phase := p)])
  }

  function Enter(s: State, files: seq<nat>): State {
    State(s.dir, s.calls + [Call(files, s.lock, Waiting)], Some(|s.calls|))
  }

  /** The lock is released, and taken out of the map unless a later call chained on it. */
  function Finish(s: State, c: nat): State
    requires c < |s.calls|
  {
    SetPhase(s, c, Finished).(lock := if s.lock == Some(c) then None else s.lock)
  }

  datatype Event =
    | Entering(files: seq<nat>)
    | Starting(c: nat)
    | Looking(c: nat, name: FileName)
    | Scanned(c: nat, quota: nat)
    | Renaming(c: nat, name: FileName)
    | Ending(c: nat)
    | Removed(name: FileName)
    | Restarted

  /**
   A call ends early at any step that can fail. Files may be removed from outside at any time, the container
   cannot write, and a restart forgets every call.
   */
  ghost predicate Enabled(s: State, e: Event) {
    match e
    case Entering(files) => files != []
    case Starting(c) => c < |s.calls| && s.calls[c].phase.Waiting? &&
      (s.calls[c].prior.Some? ==> s.calls[c].prior.value < c && Resolved(s.calls, s.calls[c].prior.value))
    case Looking(c, n) => c < |s.calls| && s.calls[c].phase.Scanning? && n in s.calls[c].phase.left
    case Scanned(c, _) => c < |s.calls| && s.calls[c].phase.Scanning? && s.calls[c].phase.left == {}
    case Renaming(c, _) => c < |s.calls| && s.calls[c].phase.Moving? && s.calls[c].phase.moved < |s.calls[c].files|
    case Ending(c) => c < |s.calls| && Running(s.calls[c].phase)
    case Removed(_) => true
    case Restarted => true
  }

  /** The entry was gone when lstat looked at it. ENOENT ends the whole scan. */
  predicate CutShort(s: State, e: Event) {
    e.Looking? && e.name !in s.dir
  }

  function Step(s: State, e: Event): State
    requires Enabled(s, e)
  {
    match e
    case Entering(files) => Enter(s, files)
    case Starting(c) => SetPhase(s, c, Scanning(s.dir.Keys, 0))
    case Looking(c, n) =>
      var p := s.calls[c].phase;
      SetPhase(s, c, if n in s.dir then Scanning(p.left - {n}, p.used + s.dir[n]) else Scanning({}, p.used))
    case Scanned(c, quota) =>
      if s.calls[c].phase.used + Sum(s.calls[c].files) > quota then Finish(s, c) else SetPhase(s, c, Moving(0))
    case Renaming(c, n) =>
      var k := s.calls[c].phase.moved;
      SetPhase(s, c, Moving(k + 1)).(dir := s.dir[n := s.calls[c].files[k]])
    case Ending(c) => Finish(s, c)
    case Removed(n) => s.(dir := s.dir - {n})
    case Restarted => State(s.dir, [], None)
  }

  /** Every scan is measured against the same quota. */
  ghost predicate IsRun(run: seq<State>, events: seq<Event>, quota: nat) {
    && |run| == |events| + 1
    && run[0].calls == [] && run[0].lock == None && Total(run[0].dir) <= quota
    && forall i :: 0 <= i < |events| ==>
      Enabled(run[i], events[i]) && run[i + 1] == Step(run[i], events[i]) && (events[i].Scanned? ==> events[i].quota == quota)
  }

  // ----- The lock

  /** A call found the lock of the one before it, or none and then all before it had finished. */
  ghost predicate Chained(s: State, c: nat)
    requires c < |s.calls|
  {
    && (s.calls[c].prior.Some? ==> c > 0 && s.calls[c].prior.value == c - 1)
    && (s.calls[c].prior.None? || !s.calls[c].phase.Waiting? ==> forall b :: 0 <= b < c ==> s.calls[b].phase.Finished?)
  }

  ghost predicate LockInv(s: State) {
    && (forall c :: 0 <= c < |s.calls| ==> Chained(s, c))
    && (s.lock.Some? ==> s.lock.value + 1 == |s.calls| && !s.calls[s.lock.value].phase.Finished?)
    && (s.lock.None? ==> forall c :: 0 <= c < |s.calls| ==> s.calls[c].phase.Finished?)
  }

  lemma {:induction false} ResolvedMeansAllBefore(s: State, c: nat)
    requires LockInv(s) && c < |s.calls| && Resolved(s.calls, c)
    ensures forall b :: 0 <= b <= c ==> s.calls[b].phase.Finished?
    decreases c
  {
    assert Chained(s, c);
  }

  lemma StepKeepsLock(s: State, e: Event)
    requires LockInv(s) && Enabled(s, e)
    ensures LockInv(Step(s, e))
  {
    var t := Step(s, e);
    if e.Starting? && s.calls[e.c].prior.Some? {
      assert Chained(s, e.c);
      ResolvedMeansAllBefore(s, e.c - 1);
    }
    hide Resolved, Sum;
    forall c | 0 <= c < |t.calls| ensures Chained(t, c) {
      if c < |s.calls| {
        assert Chained(s, c);
      }
    }
    if t.lock.None? && !e.Restarted? && s.lock.Some? {
      assert Chained(s, s.lock.value);
    }
  }

  // ----- The quota

  /** The check lets the call through. */
  predicate Admitted(s: State, c: nat, quota: nat)
    requires c < |s.calls| && s.calls[c].phase.Scanning?
  {
    s.calls[c].phase.used + Sum(s.calls[c].files) <= quota
  }

  /** The step lets a call through for which the directory has no room. */
  ghost predicate Blind(s: State, e: Event)
    requires Enabled(s, e)
  {
    e.Scanned? && Admitted(s, e.c, e.quota) && e.quota < Total(s.dir) + Sum(s.calls[e.c].files)
  }

  /** A call that was let through has room for the files it still has to move. */
  ghost predicate HasRoom(s: State, c: nat, quota: nat)
    requires c < |s.calls|
  {
    match s.calls[c].phase
    case Moving(k) => k <= |s.calls[c].files| && Total(s.dir) + Sum(s.calls[c].files[k..]) <= quota
    case _ => true
  }

  ghost predicate QuotaInv(s: State, quota: nat) {
    && Total(s.dir) <= quota
    && forall c :: 0 <= c < |s.calls| ==> HasRoom(s, c, quota)
  }

  lemma RenamedHasRoom(s: State, c: nat, n: FileName, quota: nat)
    requires Enabled(s, Renaming(c, n)) && HasRoom(s, c, quota)
    ensures HasRoom(Step(s, Renaming(c, n)), c, quota)
    ensures Total(Step(s, Renaming(c, n)).dir) <= quota
  {
    var k := s.calls[c].phase.moved;
    var files := s.calls[c].files;
    TotalPut(s.dir, n, files[k]);
    assert files[k..][1..] == files[k + 1..];
  }

  lemma StepHasRoom(s: State, e: Event, quota: nat, c: nat)
    requires LockInv(s) && QuotaInv(s, quota) && Enabled(s, e)
    requires !Blind(s, e) && (e.Scanned? ==> e.quota == quota)
    requires c < |Step(s, e).calls|
    ensures HasRoom(Step(s, e), c, quota)
  {
    hide Resolved, Sum, Total;
    if c < |s.calls| {
      assert HasRoom(s, c, quota) && Chained(s, c);
    }
    match e
    case Entering(files) =>
    case Starting(b) =>
    case Looking(b, n) =>
    case Scanned(b, q) =>
      assert s.calls[b].files[0..] == s.calls[b].files;
    case Renaming(b, n) =>
      RenamedHasRoom(s, b, n, quota);
      assert Chained(s, b);
    case Ending(b) =>
    case Removed(n) =>
      TotalPut(s.dir, n, 0);
    case Restarted =>
  }

  lemma StepKeepsQuota(s: State, e: Event, quota: nat)
    requires LockInv(s) && QuotaInv(s, quota) && Enabled(s, e)
    requires !Blind(s, e) && (e.Scanned? ==> e.quota == quota)
    ensures QuotaInv(Step(s, e), quota)
  {
    var t := Step(s, e);
    forall c | 0 <= c < |t.calls| ensures HasRoom(t, c, quota) {
      StepHasRoom(s, e, quota, c);
    }
    if e.Renaming? {
      RenamedHasRoom(s, e.c, e.name, quota);
    } else if e.Removed? {
      TotalPut(s.dir, e.name, 0);
    }
    hide Resolved, Sum, Total, HasRoom;
  }

  // ----- The scan

  /** A scan has counted the whole directory but for the entries it has not looked at. */
  ghost predicate Counted(s: State, c: nat)
    requires c < |s.calls|
  {
    match s.calls[c].phase
    case Scanning(left, used) => Total(s.dir) <= used + Total(Among(s.dir, left))
    case _ => true
  }

  ghost predicate AllCounted(s: State) {
    forall c :: 0 <= c < |s.calls| ==> Counted(s, c)
  }

  lemma RemovedFromScan(d: Dir, left: set<FileName>, used: nat, n: FileName)
    requires Total(d) <= used + Total(Among(d, left))
    ensures Total(d - {n}) <= used + Total(Among(d - {n}, left))
  {
    assert Among(d - {n}, left) == Among(d, left) - {n};
    if n in d {
      TotalAt(d, n);
      if n in left {
        TotalAt(Among(d, left), n);
      } else {
        assert Among(d, left) - {n} == Among(d, left);
      }
    } else {
      assert d - {n} == d;
    }
  }

  lemma LookedCounted(s: State, c: nat, n: FileName)
    requires Enabled(s, Looking(c, n)) && n in s.dir && Counted(s, c)
    ensures Counted(Step(s, Looking(c, n)), c)
  {
    var left := s.calls[c].phase.left;
    TotalAt(Among(s.dir, left), n);
    assert Among(s.dir, left - {n}) == Among(s.dir, left) - {n};
  }

  lemma StepCounted(s: State, e: Event, c: nat)
    requires LockInv(s) && AllCounted(s) && Enabled(s, e) && !CutShort(s, e)
    requires c < |Step(s, e).calls|
    ensures Counted(Step(s, e), c)
  {
    hide Resolved, Sum, Total;
    if c < |s.calls| {
      assert Counted(s, c) && Chained(s, c);
    }
    match e
    case Entering(files) =>
    case Starting(b) =>
      assert Among(s.dir, s.dir.Keys) == s.dir;
    case Looking(b, n) =>
      LookedCounted(s, b, n);
    case Scanned(b, q) =>
    case Renaming(b, n) =>
      assert Chained(s, b);
    case Ending(b) =>
    case Removed(n) =>
      if c < |s.calls| && s.calls[c].phase.Scanning? {
        RemovedFromScan(s.dir, s.calls[c].phase.left, s.calls[c].phase.used, n);
      }
    case Restarted =>
  }

  /** A scan that saw every entry lets nothing through blindly. */
  lemma FullScanSees(s: State, e: Event)
    requires AllCounted(s) && Enabled(s, e)
    ensures !Blind(s, e)
  {
    if e.Scanned? {
      assert Counted(s, e.c);
      assert Among(s.dir, {}) == map[];
    }
  }

  // ----- Moving all the files of a call

  /** The state after renames of the call's next files to those names, with nothing in between. */
  ghost function Moved(s: State, c: nat, names: seq<FileName>): (t: State)
    requires c < |s.calls| && s.calls[c].phase == Moving(0) && |names| <= |s.calls[c].files|
    ensures t == SetPhase(s, c, Moving(|names|)).(dir := Placed(s.dir, names, s.calls[c].files[..|names|]))
    decreases |names|
  {
    if names == [] then s
    else
      var n := |names| - 1;
      var files := s.calls[c].files[..n + 1];
      assert names[..n + 1] == names;
      assert files[..n] == s.calls[c].files[..n];
      PlacedNext(s.dir, names, files, n);
      Step(Moved(s, c, names[..n]), Renaming(c, names[n]))
  }

  /**
   The guard that fails. For every state and every call at its check: the call is let through and its files, moved to
   fresh names, take the directory over the quota, exactly when what was counted leaves room for them and the directory
   does not.
   */
  lemma OvershootsExactly(s: State, c: nat, quota: nat, names: seq<FileName>)
    requires Enabled(s, Scanned(c, quota)) && |names| == |s.calls[c].files| && FreshNames(s.dir, names)
    ensures Admitted(s, c, quota) <==> Step(s, Scanned(c, quota)).calls[c].phase == Moving(0)
    ensures Admitted(s, c, quota) && Total(Moved(Step(s, Scanned(c, quota)), c, names).dir) > quota
      <==> s.calls[c].phase.used + Sum(s.calls[c].files) <= quota < Total(s.dir) + Sum(s.calls[c].files)
  {
    PlacedFresh(s.dir, names, s.calls[c].files);
    assert s.calls[c].files[..|names|] == s.calls[c].files;
    hide Total, Sum, Placed;
  }

  /**
   The same where a scan is cut short, for every directory: the call is let through by what it counted before, and
   overshoots exactly when the bytes it did not count exceed what its files leave of the quota.
   */
  lemma VanishedFileOvershoots(s: State, c: nat, gone: FileName, quota: nat, names: seq<FileName>)
    requires Enabled(s, Looking(c, gone)) && CutShort(s, Looking(c, gone))
    requires |names| == |s.calls[c].files| && FreshNames(s.dir, names)
    ensures var t := Step(s, Looking(c, gone));
      && Enabled(t, Scanned(c, quota))
      && (Admitted(t, c, quota) <==> s.calls[c].phase.used + Sum(s.calls[c].files) <= quota)
      && (Admitted(t, c, quota) && Total(Moved(Step(t, Scanned(c, quota)), c, names).dir) > quota
        <==> 0 <= quota - s.calls[c].phase.used - Sum(s.calls[c].files) < Total(s.dir) - s.calls[c].phase.used)
  {
    OvershootsExactly(Step(s, Looking(c, gone)), c, quota, names);
    hide Total, Sum, Moved;
  }

  // ----- Every run

  lemma {:induction false} ReachableLock(run: seq<State>, events: seq<Event>, quota: nat, n: nat)
    requires IsRun(run, events, quota) && n < |run|
    ensures LockInv(run[n])
    decreases n
  {
    if n > 0 {
      ReachableLock(run, events, quota, n - 1);
      StepKeepsLock(run[n - 1], events[n - 1]);
    }
  }

  /** At most one writeUploadsImpl runs, in order of arrival, and the map is empty exactly when every call has finished. */
  lemma OneWriterAtATime(run: seq<State>, events: seq<Event>, quota: nat, n: nat)
    requires IsRun(run, events, quota) && n < |run|
    ensures forall b, c :: 0 <= b < c < |run[n].calls| && !run[n].calls[c].phase.Waiting? ==> run[n].calls[b].phase.Finished?
    ensures run[n].lock.None? <==> forall c :: 0 <= c < |run[n].calls| ==> run[n].calls[c].phase.Finished?
  {
    ReachableLock(run, events, quota, n);
    var s := run[n];
    forall b, c | 0 <= b < c < |s.calls| && !s.calls[c].phase.Waiting? ensures s.calls[b].phase.Finished? {
      assert Chained(s, c);
    }
  }

  /** The oldest call not finished is running, or its wait is over: nobody waits for ever behind a finished call. */
  lemma OldestMayRun(run: seq<State>, events: seq<Event>, quota: nat, n: nat, c: nat)
    requires IsRun(run, events, quota) && n < |run| && c < |run[n].calls| && run[n].calls[c].phase.Waiting?
    requires forall b :: 0 <= b < c ==> run[n].calls[b].phase.Finished?
    ensures Enabled(run[n], Starting(c))
  {
    ReachableLock(run, events, quota, n);
    assert Chained(run[n], c);
    if run[n].calls[c].prior.Some? {
      FinishedMeansResolved(run[n], c - 1);
    }
  }

  lemma {:induction false} FinishedMeansResolved(s: State, c: nat)
    requires LockInv(s) && c < |s.calls| && forall b :: 0 <= b <= c ==> s.calls[b].phase.Finished?
    ensures Resolved(s.calls, c)
    decreases c
  {
    assert Chained(s, c);
    if s.calls[c].prior.Some? {
      FinishedMeansResolved(s, c - 1);
    }
  }

  /** The directory never exceeds the quota, mid-loop failures and restarts included, unless a call was let through blindly. */
  lemma {:induction false} QuotaHolds(run: seq<State>, events: seq<Event>, quota: nat, n: nat)
    requires IsRun(run, events, quota) && n < |run|
    requires forall i :: 0 <= i < n ==> !Blind(run[i], events[i])
    ensures QuotaInv(run[n], quota) && Total(run[n].dir) <= quota
    decreases n
  {
    if n > 0 {
      QuotaHolds(run, events, quota, n - 1);
      ReachableLock(run, events, quota, n - 1);
      StepKeepsQuota(run[n - 1], events[n - 1], quota);
    }
  }

  lemma {:induction false} ScansCount(run: seq<State>, events: seq<Event>, quota: nat, n: nat)
    requires IsRun(run, events, quota) && n < |run|
    requires forall i :: 0 <= i < n ==> !CutShort(run[i], events[i])
    ensures AllCounted(run[n])
    decreases n
  {
    hide Step, Enabled;
    if n > 0 {
      ScansCount(run, events, quota, n - 1);
      ReachableLock(run, events, quota, n - 1);
      forall c | 0 <= c < |run[n].calls| ensures Counted(run[n], c) {
        StepCounted(run[n - 1], events[n - 1], c);
      }
    }
  }

  /** And no call is, if no entry vanishes between the listing and its lstat. */
  lemma QuotaHoldsUncut(run: seq<State>, events: seq<Event>, quota: nat, n: nat)
    requires IsRun(run, events, quota) && n < |run|
    requires forall i :: 0 <= i < n ==> !CutShort(run[i], events[i])
    ensures Total(run[n].dir) <= quota
  {
    forall i | 0 <= i < n ensures !Blind(run[i], events[i]) {
      ScansCount(run, events, quota, i);
      FullScanSees(run[i], events[i]);
    }
    QuotaHolds(run, events, quota, n);
  }

  lemma {:induction false} RenamesMove(run: seq<State>, events: seq<Event>, quota: nat, i: nat, c: nat, names: seq<FileName>)
    requires IsRun(run, events, quota) && i + |names| < |run|
    requires c < |run[i].calls| && run[i].calls[c].phase == Moving(0) && |names| <= |run[i].calls[c].files|
    requires forall j :: 0 <= j < |names| ==> events[i + j] == Renaming(c, names[j])
    ensures run[i + |names|] == Moved(run[i], c, names)
    decreases |names|
  {
    if names != [] {
      var n := |names| - 1;
      RenamesMove(run, events, quota, i, c, names[..n]);
      assert events[i + n] == Renaming(c, names[n]);
      assert run[i + n + 1] == Step(run[i + n], events[i + n]);
    }
    hide Enabled, Placed, Resolved;
  }

  lemma RenamerWasAdmitted(s: State, c: nat, quota: nat, n: FileName)
    requires Enabled(s, Scanned(c, quota)) && Enabled(Step(s, Scanned(c, quota)), Renaming(c, n))
    ensures Admitted(s, c, quota) && s.calls[c].phase.Scanning?
    ensures var t := Step(s, Scanned(c, quota));
      c < |t.calls| && t.calls[c].phase == Moving(0) && t.calls[c].files == s.calls[c].files
  {
    hide Sum;
  }

  /**
   In every run: a call that passes its check and then moves all its files to fresh names, undisturbed, leaves the
   directory over the quota if and only if it was let through blindly. With QuotaHolds, the quota can be exceeded in no
   other way.
   */
  lemma BlindCallOvershoots(run: seq<State>, events: seq<Event>, quota: nat, i: nat, names: seq<FileName>)
    requires IsRun(run, events, quota) && i + 1 + |names| < |run| && events[i].Scanned?
    requires |names| == |run[i].calls[events[i].c].files| > 0 && FreshNames(run[i].dir, names)
    requires forall j :: 0 <= j < |names| ==> events[i + 1 + j] == Renaming(events[i].c, names[j])
    ensures Total(run[i + 1 + |names|].dir) > quota <==> Blind(run[i], events[i])
  {
    hide Total, Sum, Placed, Resolved, Moved, Step, Enabled;
    var c := events[i].c;
    assert events[i] == Scanned(c, quota);
    assert events[i + 1 + 0] == Renaming(c, names[0]) && Enabled(run[i + 1], events[i + 1]);
    RenamerWasAdmitted(run[i], c, quota, names[0]);
    OvershootsExactly(run[i], c, quota, names);
    RenamesMove(run, events, quota, i + 1, c, names);
  }

  const A := FileName("a")
  const B := FileName("b")
  const C := FileName("c")

  /** Such runs exist: a file removed between readdir and its lstat, and 4 bytes let into a directory of 4 with quota 5. */
  lemma OvershootHappens() returns (run: seq<State>, events: seq<Event>)
    ensures IsRun(run, events, 5) && Total(run[|events|].dir) > 5
  {
    hide Total, Sum, IsRun, Step, Enabled, Overshoot;
    events := [Entering([4]), Starting(0), Removed(A), Looking(0, A), Scanned(0, 5), Renaming(0, C)];
    run := [
      State(map[A := 1, B := 4], [], None),
      Overshoot(map[A := 1, B := 4], Waiting),
      Overshoot(map[A := 1, B := 4], Scanning({A, B}, 0)),
      Overshoot(map[B := 4], Scanning({A, B}, 0)),
      Overshoot(map[B := 4], Scanning({}, 0)),
      Overshoot(map[B := 4], Moving(0)),
      Overshoot(map[B := 4, C := 4], Moving(1))
    ];
    TotalOfTwo(A, 1, B, 4);
    TotalOfTwo(B, 4, C, 4);
    OvershootSteps();
    OvershootMoves();
    IsRunOf(run, events);
    OvershootIsBlind();
    BlindCallOvershoots(run, events, 5, 4, [C]);
  }

  function Overshoot(d: Dir, p: Phase): State {
    State(d, [Call([4], None, p)], Some(0))
  }

  lemma OvershootSteps()
    ensures var s := State(map[A := 1, B := 4], [], None);
      Enabled(s, Entering([4])) && Step(s, Entering([4])) == Overshoot(map[A := 1, B := 4], Waiting)
    ensures var s := Overshoot(map[A := 1, B := 4], Waiting);
      Enabled(s, Starting(0)) && Step(s, Starting(0)) == Overshoot(map[A := 1, B := 4], Scanning({A, B}, 0))
    ensures var s := Overshoot(map[A := 1, B := 4], Scanning({A, B}, 0));
      Enabled(s, Removed(A)) && Step(s, Removed(A)) == Overshoot(map[B := 4], Scanning({A, B}, 0))
    ensures var s := Overshoot(map[B := 4], Scanning({A, B}, 0));
      Enabled(s, Looking(0, A)) && Step(s, Looking(0, A)) == Overshoot(map[B := 4], Scanning({}, 0))
  {
    hide Sum, Resolved, Total;
    assert map[A := 1, B := 4] - {A} == map[B := 4];
    assert map[A := 1, B := 4].Keys == {A, B};
  }

  lemma OvershootMoves()
    ensures var s := Overshoot(map[B := 4], Scanning({}, 0));
      Enabled(s, Scanned(0, 5)) && Step(s, Scanned(0, 5)) == Overshoot(map[B := 4], Moving(0))
    ensures var s := Overshoot(map[B := 4], Moving(0));
      Enabled(s, Renaming(0, C)) && Step(s, Renaming(0, C)) == Overshoot(map[B := 4, C := 4], Moving(1))
    ensures Overshoot(map[B := 4, C := 4], Moving(1)).dir == map[B := 4, C := 4]
  {
    hide Resolved, Total;
    assert Sum([4]) == 4;
  }

  lemma OvershootIsBlind()
    ensures var s := Overshoot(map[B := 4], Scanning({}, 0));
      && Enabled(s, Scanned(0, 5)) && Blind(s, Scanned(0, 5))
      && s.calls[0].files == [4] && 0 < |s.calls| && FreshNames(s.dir, [C])
  {
    assert Sum([4]) == 4;
    TotalAt(map[B := 4], B);
    hide Resolved, Total;
  }

  lemma IsRunOf(run: seq<State>, events: seq<Event>)
    requires |run| == 7 && |events| == 6
    requires run[0].calls == [] && run[0].lock == None && Total(run[0].dir) <= 5
    requires Enabled(run[0], events[0]) && run[1] == Step(run[0], events[0])
    requires Enabled(run[1], events[1]) && run[2] == Step(run[1], events[1])
    requires Enabled(run[2], events[2]) && run[3] == Step(run[2], events[2])
    requires Enabled(run[3], events[3]) && run[4] == Step(run[3], events[3])
    requires Enabled(run[4], events[4]) && run[5] == Step(run[4], events[4])
    requires Enabled(run[5], events[5]) && run[6] == Step(run[5], events[5])
    requires forall i :: 0 <= i < 6 ==> (events[i].Scanned? ==> events[i].quota == 5)
    ensures IsRun(run, events, 5)
  {
    hide Total, Step, Enabled;
  }

  lemma TotalOfTwo(m: FileName, x: nat, n: FileName, y: nat)
    requires m != n
    ensures Total(map[m := x, n := y]) == x + y
  {
    TotalAt(map[m := x, n := y], m);
    assert map[m := x, n := y] - {m} == map[n := y];
    TotalAt(map[n := y], n);
    assert map[n := y] - {n} == map[];
  }

  // ----- The code

  datatype Outcome = Stored(paths: seq<FileName>) | QuotaExceeded(used: nat, attempted: nat) | Failed

  /** Nothing in the directory that was not there. */
  ghost predicate Shrunk(d: Dir, was: Dir) {
    forall n :: n in d ==> n in was && d[n] == was[n]
  }

  lemma ShrunkSelf(d: Dir)
    ensures Shrunk(d, d)
  {
  }

  lemma ShrunkTwice(a: Dir, b: Dir, c: Dir)
    requires Shrunk(a, b) && Shrunk(b, c)
    ensures Shrunk(a, c)
  {
  }

  lemma ShrunkPut(a: Dir, b: Dir, n: FileName, size: nat)
    requires Shrunk(a, b)
    ensures Shrunk(a[n := size], b[n := size])
  {
  }

  lemma {:induction false} PlacedShrunk(a: Dir, b: Dir, names: seq<FileName>, sizes: seq<nat>)
    requires Shrunk(a, b) && |names| == |sizes|
    ensures Shrunk(Placed(a, names, sizes), Placed(b, names, sizes))
    decreases |names|
  {
    if names != [] {
      PlacedShrunk(a, b, names[..|names| - 1], sizes[..|names| - 1]);
    }
  }

  lemma {:induction false} ShrunkWeighs(d: Dir, was: Dir)
    requires Shrunk(d, was)
    ensures Total(d) <= Total(was)
    decreases |was|
  {
    if n :| n in was && n !in d {
      TotalAt(was, n);
      ShrunkWeighs(d, was - {n});
    } else {
      assert d == was;
    }
  }

  /** Removals leave the scan's count an upper bound, and do not add to what it may still count. */
  lemma {:induction false} ShrunkScan(d: Dir, was: Dir, left: set<FileName>, used: nat)
    requires Shrunk(d, was) && Total(was) <= used + Total(Among(was, left))
    ensures Total(d) <= used + Total(Among(d, left))
    ensures Total(Among(d, left)) <= Total(Among(was, left))
    decreases |was|
  {
    hide Total;
    if n :| n in was && n !in d {
      RemovedFromScan(was, left, used, n);
      ShrunkScan(d, was - {n}, left, used);
    } else {
      assert d == was;
    }
    ShrunkWeighs(Among(d, left), Among(was, left));
  }

  lemma AmongAll(d: Dir)
    ensures Among(d, d.Keys) == d
  {
  }

  lemma AmongNone(d: Dir)
    ensures Total(Among(d, {})) == 0
  {
    assert Among(d, {}) == map[];
  }

  lemma AmongOne(d: Dir, left: set<FileName>, n: FileName)
    requires n in d && n in left
    ensures Total(Among(d, left)) == d[n] + Total(Among(d, left - {n}))
  {
    TotalAt(Among(d, left), n);
    assert Among(d, left - {n}) == Among(d, left) - {n};
  }

  /** What a call leaves: some of what was there and of its first `k` files, and undisturbed exactly that. */
  ghost predicate Leaves(outcome: Outcome, k: nat, d: Dir, was: Dir, names: seq<FileName>, sizes: seq<nat>, calm: bool)
    requires k <= |names| == |sizes|
  {
    && Shrunk(d, Placed(was, names[..k], sizes[..k]))
    && (calm ==> d == Placed(was, names[..k], sizes[..k]))
    && (outcome.Stored? ==> k == |names|)
    && (outcome.QuotaExceeded? ==> k == 0)
  }

  lemma NonePlaced(d: Dir, was: Dir, names: seq<FileName>, sizes: seq<nat>)
    requires |names| == |sizes| && Shrunk(d, was)
    ensures Placed(was, names[..0], sizes[..0]) == was
    ensures Shrunk(d, Placed(was, names[..0], sizes[..0]))
  {
  }

  /** Other calls arrived, in that order. */
  function EnterAll(s: State, arrivals: seq<seq<nat>>): State {
    if arrivals == [] then s else Enter(EnterAll(s, arrivals[..|arrivals| - 1]), arrivals[|arrivals| - 1])
  }

  /** The calls and the lock after any number of arrivals. */
  ghost predicate Joined(s: State, t: State) {
    exists arrivals :: t.(dir := s.dir) == EnterAll(s, arrivals)
  }

  lemma JoinedSelf(s: State, d: Dir)
    ensures Joined(s, s.(dir := d))
  {
    assert s == EnterAll(s, []);
  }

  lemma JoinedOne(s: State, t: State, files: seq<nat>)
    requires Joined(s, t)
    ensures Joined(s, Enter(t, files))
  {
    var arrivals :| t.(dir := s.dir) == EnterAll(s, arrivals);
    assert (arrivals + [files])[..|arrivals|] == arrivals;
    assert Enter(t, files).(dir := s.dir) == EnterAll(s, arrivals + [files]);
  }

  lemma JoinedTwice(s: State, t: State, u: State)
    requires Joined(s, t) && Joined(t, u)
    ensures Joined(s, u)
  {
    var arrivals :| u.(dir := t.dir) == EnterAll(t, arrivals);
    JoinedMore(s, t, arrivals);
    JoinedMoved(s, EnterAll(t, arrivals), u);
  }

  lemma JoinedMoved(s: State, t: State, u: State)
    requires Joined(s, t) && u.calls == t.calls && u.lock == t.lock
    ensures Joined(s, u)
  {
    assert u.(dir := s.dir) == t.(dir := s.dir);
  }

  lemma {:induction false} JoinedMore(s: State, t: State, arrivals: seq<seq<nat>>)
    requires Joined(s, t)
    ensures Joined(s, EnterAll(t, arrivals))
    decreases |arrivals|
  {
    if arrivals != [] {
      JoinedMore(s, t, arrivals[..|arrivals| - 1]);
      JoinedOne(s, EnterAll(t, arrivals[..|arrivals| - 1]), arrivals[|arrivals| - 1]);
    }
  }

  /** Arrivals queue up behind: they change nothing for the call whose turn it is. */
  lemma JoinedKeeps(s: State, t: State, c: nat)
    requires LockInv(s) && Enabled(s, Starting(c)) && Joined(s, t)
    ensures LockInv(t) && c < |t.calls| && Enabled(t, Starting(c)) && t.calls[c] == s.calls[c]
  {
    var arrivals :| t.(dir := s.dir) == EnterAll(s, arrivals);
    EnterAllKeeps(s, arrivals, c);
    SameLock(EnterAll(s, arrivals), t);
    hide LockInv;
  }

  lemma {:induction false} EnterAllKeeps(s: State, arrivals: seq<seq<nat>>, c: nat)
    requires LockInv(s) && Enabled(s, Starting(c))
    ensures var t := EnterAll(s, arrivals); LockInv(t) && Enabled(t, Starting(c)) && t.calls[c] == s.calls[c]
    decreases |arrivals|
  {
    if arrivals != [] {
      var t := EnterAll(s, arrivals[..|arrivals| - 1]);
      EnterAllKeeps(s, arrivals[..|arrivals| - 1], c);
      EnterKeeps(t, arrivals[|arrivals| - 1], c);
      hide LockInv, Resolved;
    }
  }

  lemma EnterKeeps(s: State, files: seq<nat>, c: nat)
    requires LockInv(s) && Enabled(s, Starting(c))
    ensures var t := Enter(s, files); LockInv(t) && Enabled(t, Starting(c)) && t.calls[c] == s.calls[c]
  {
    var t := Enter(s, files);
    forall b | 0 <= b < |t.calls| ensures Chained(t, b) {
      if b < |s.calls| {
        assert Chained(s, b);
      }
    }
    if s.calls[c].prior.Some? {
      ResolvedLater(s.calls, t.calls[|s.calls|], s.calls[c].prior.value);
    }
    if s.lock.Some? {
      assert Chained(s, s.lock.value);
    }
  }

  lemma {:induction false} ResolvedLater(calls: seq<Call>, next: Call, c: nat)
    requires c < |calls| && Resolved(calls, c)
    ensures Resolved(calls + [next], c)
    decreases c
  {
    if calls[c].prior.Some? {
      ResolvedLater(calls, next, calls[c].prior.value);
    }
  }

  class UploadStore {
    var dir: Dir
    var calls: seq<Call>
    var lock: Option<nat>

    ghost function View(): State
      reads this
    {
      State(dir, calls, lock)
    }

    constructor (dir: Dir)
      ensures View() == State(dir, [], None) && LockInv(View())
    {
      this.dir, calls, lock := dir, [], None;
    }

    /** The synchronous start of a call; without files there is nothing to do and no lock. */
    method Enter(files: seq<nat>) returns (c: Option<nat>)
      requires LockInv(View())
      modifies this
      ensures LockInv(View())
      ensures files == [] ==> c == None && View() == old(View())
      ensures files != [] ==> c == Some(|old(calls)|) && View() == Step(old(View()), Entering(files))
    {
      if |files| == 0 {
        return None;
      }
      StepKeepsLock(View(), Entering(files));
      c := Some(|calls|);
      calls := calls + [Call(files, lock, Waiting)];
      lock := c;
    }

    /** An await under the lock: unless `calm`, files may be removed and other calls arrive. */
    method Await(calm: bool)
      modifies this
      ensures Shrunk(dir, old(dir)) && Joined(old(View()), View()) && (calm ==> View() == old(View()))
    {
      var gone: set<FileName> := *;
      var arrivals: seq<seq<nat>> := *;
      JoinedSelf(View(), dir);
      if calm {
        return;
      }
      dir := dir - gone;
      JoinedSelf(old(View()), dir);
      for k := 0 to |arrivals|
        invariant Joined(old(View()), View()) && dir == old(dir) - gone
      {
        if arrivals[k] != [] {
          JoinedOne(old(View()), View(), arrivals[k]);
          calls, lock := calls + [Call(arrivals[k], lock, Waiting)], Some(|calls|);
        }
      }
    }

    /**
     writeUploadsImpl of the call whose turn it is, with removals and arrivals of other calls at every await, and the
     release of the lock, which the last of those who came meanwhile then has. `names` are the random names, any step can
     fail unless `sound`, and `cut` says that an entry vanished under the scan. What is in the directory afterwards was there before or is
     one of the call's first `k` files: all of them if it is stored, none if it is refused. It is refused only over the
     quota, and the quota is kept unless the scan was cut. Undisturbed, nothing is lost, a call over the quota stores
     nothing, and one within it stores everything unless a step fails.
     */
    method Write(c: nat, quota: nat, names: seq<FileName>, calm: bool, sound: bool) returns (outcome: Outcome, cut: bool)
      requires LockInv(View()) && c < |calls| && Enabled(View(), Starting(c)) && |names| == |calls[c].files|
      modifies this
      ensures LockInv(View()) && exists s :: Joined(old(View()), s) && c < |s.calls| && View() == Finish(s, c).(dir := dir)
      ensures Total(old(dir)) <= quota && !cut ==> Total(dir) <= quota
      ensures outcome.QuotaExceeded? ==> Total(old(dir)) + Sum(old(calls[c].files)) > quota
      ensures outcome.QuotaExceeded? ==> outcome.attempted == Sum(old(calls[c].files)) && outcome.used <= Total(old(dir))
      ensures outcome.QuotaExceeded? && calm ==> outcome.used == Total(old(dir))
      ensures sound ==> !outcome.Failed?
      ensures sound && calm ==> (outcome.Stored? <==> Total(old(dir)) + Sum(old(calls[c].files)) <= quota)
      ensures outcome.Stored? ==> outcome.paths == names
      ensures exists k: nat :: k <= |names| && Leaves(outcome, k, dir, old(dir), names, old(calls[c].files), calm)
      ensures calm ==> View() == Finish(old(View()), c).(dir := dir)
      ensures calm ==> !cut && (Total(old(dir)) + Sum(old(calls[c].files)) > quota ==> !outcome.Stored? && dir == old(dir))
    {
      hide LockInv, Resolved, Total, Sum, Placed, Enabled, Shrunk, Joined;
      var files := calls[c].files;
      ghost var s0 := View();
      ghost var d0 := dir;
      Await(calm);
      ghost var d1, s1 := dir, View();
      var used;
      used, cut := ScanDirectory(calm);
      ghost var d2, s2 := dir, View();
      var attempted := SumOf(files);
      Await(calm);
      ghost var s3 := View();
      JoinedTwice(s0, s1, s2);
      JoinedTwice(s0, s2, s3);
      JoinedKeeps(s0, s3, c);
      FinishKeepsLock(s3, c);
      ShrunkTwice(d2, d1, d0);
      ShrunkTwice(dir, d2, d0);
      ShrunkWeighs(d1, d0);
      ShrunkWeighs(dir, d2);
      NonePlaced(dir, d0, names, files);
      var fails: bool := *;
      if fails && !sound {
        Release(c);
        assert Leaves(Failed, 0, dir, d0, names, files, calm);
        return Failed, cut;
      }
      if used + attempted > quota {
        Release(c);
        outcome := QuotaExceeded(used, attempted);
        assert Leaves(outcome, 0, dir, d0, names, files, calm);
        return;
      }
      ghost var d3 := dir;
      var k := MoveFiles(files, names, calm, sound);
      JoinedTwice(s0, s3, View());
      JoinedKeeps(s0, View(), c);
      FinishKeepsLock(View(), c);
      PlacedShrunk(d3, d0, names[..k], files[..k]);
      ShrunkTwice(dir, Placed(d3, names[..k], files[..k]), Placed(d0, names[..k], files[..k]));
      PlacedWeighs(d3, names[..k], files[..k]);
      SumPrefix(files, k);
      ShrunkWeighs(dir, Placed(d3, names[..k], files[..k]));
      Release(c);
      outcome := if k < |files| then Failed else Stored(names);
      assert Leaves(outcome, k, dir, d0, names, files, calm);
    }

    /** The renames, one after another; the first that fails ends them. */
    method MoveFiles(files: seq<nat>, names: seq<FileName>, calm: bool, sound: bool) returns (k: nat)
      requires |names| == |files|
      modifies this
      ensures k <= |files| && Shrunk(dir, Placed(old(dir), names[..k], files[..k])) && Joined(old(View()), View())
      ensures calm ==> View() == old(View()).(dir := Placed(old(dir), names[..k], files[..k]))
      ensures sound ==> k == |files|
    {
      hide Shrunk, Placed, Joined;
      k := 0;
      JoinedSelf(View(), dir);
      ShrunkSelf(dir);
      NonePlaced(dir, dir, names, files);
      while k < |files|
        invariant k <= |files| && Shrunk(dir, Placed(old(dir), names[..k], files[..k]))
        invariant Joined(old(View()), View())
        invariant calm ==> View() == old(View()).(dir := Placed(old(dir), names[..k], files[..k]))
      {
        ghost var before, s := dir, View();
        Await(calm);
        JoinedTwice(old(View()), s, View());
        ShrunkTwice(dir, before, Placed(old(dir), names[..k], files[..k]));
        var fails: bool := *;
        if fails && !sound {
          return;
        }
        PlacedNext(old(dir), names, files, k);
        ShrunkPut(dir, Placed(old(dir), names[..k], files[..k]), names[k], files[k]);
        JoinedMoved(old(View()), View(), View().(dir := dir[names[k] := files[k]]));
        dir := dir[names[k] := files[k]];
        k := k + 1;
      }
    }

    /** The scan of the directory, with others at every await; the first entry found gone ends it. */
    method ScanDirectory(calm: bool) returns (used: nat, cut: bool)
      modifies this
      ensures Shrunk(dir, old(dir)) && used <= Total(old(dir)) && Joined(old(View()), View())
      ensures !cut ==> Total(dir) <= used
      ensures calm ==> !cut && View() == old(View()) && used == Total(dir)
    {
      hide Total, Shrunk, Joined;
      JoinedSelf(View(), dir);
      used, cut := 0, false;
      var left := dir.Keys;
      AmongAll(dir);
      ShrunkSelf(dir);
      while left != {}
        invariant Shrunk(dir, old(dir)) && (calm ==> View() == old(View()) && left <= dir.Keys)
        invariant Joined(old(View()), View())
        invariant Total(dir) <= used + Total(Among(dir, left)) <= Total(old(dir))
        invariant calm ==> Total(dir) == used + Total(Among(dir, left))
        decreases left
      {
        ghost var before, s := dir, View();
        Await(calm);
        JoinedTwice(old(View()), s, View());
        ShrunkScan(dir, before, left, used);
        ShrunkTwice(dir, before, old(dir));
        var n :| n in left;
        if n !in dir {
          cut := true;
          return;
        }
        AmongOne(dir, left, n);
        used := used + dir[n];
        left := left - {n};
      }
      AmongNone(dir);
    }

    method SumOf(files: seq<nat>) returns (attempted: nat)
      ensures attempted == Sum(files)
    {
      attempted := 0;
      for k := 0 to |files|
        invariant attempted == Sum(files[..k])
      {
        assert files[..k + 1] == files[..k] + [files[k]];
        SumSnoc(files[..k], files[k]);
        attempted := attempted + files[k];
      }
      assert files[..|files|] == files;
    }

    method Release(c: nat)
      requires c < |calls|
      modifies this`calls, this`lock
      ensures View() == Finish(old(View()), c)
    {
      calls := calls[c := calls[c].(phase := Finished)];
      if lock == Some(c) {
        lock := None;
      }
    }
  }

  /** Whatever a call whose turn it is does to the directory, its release keeps the lock right. */
  lemma FinishKeepsLock(s: State, c: nat)
    requires LockInv(s) && Enabled(s, Starting(c))
    ensures LockInv(Finish(s, c))
    ensures forall d :: LockInv(Finish(s, c).(dir := d))
  {
    StepKeepsLock(s, Starting(c));
    var t := Step(s, Starting(c));
    StepKeepsLock(t, Ending(c));
    assert Finish(t, c).calls == Finish(s, c).calls;
    forall d ensures LockInv(Finish(s, c).(dir := d)) {
      SameLock(Finish(t, c), Finish(s, c).(dir := d));
    }
  }

  lemma SameLock(s: State, t: State)
    requires LockInv(s) && t.calls == s.calls && t.lock == s.lock
    ensures LockInv(t)
  {
    forall c | 0 <= c < |t.calls| ensures Chained(t, c) {
      assert Chained(s, c);
    }
  }
}
