/**
 The fail-closed gate: the lifecycle lock with the recreation record as its guard
 (backend/src/index.ts:148-159), over every run with crashes and restarts.

 A `World` is one session's record on disk, the process that serves it, and the
 lock. Every `await` is a step boundary: reading a record and writing the next one
 are separate events, and so are a write's rename and its fsync. A crash wipes the
 process and leaves what is durable. The body of a hard delete purges the record's
 directory (routes/sessions.ts:800-810), which no fsync makes durable.

 Assumed of the callers (recreate/engine.ts): transitions of one session's record
 do not overlap; begin is called by the body of a `recreate` and resolve, adopt and
 approve by the body of a `recreate` or `recreate-resolve`, each awaiting the call,
 save a mark and the resolve of a rollback, which retains no container (1312-1322
 and 1841): these may still be writing when the lock is released. Boot recovery
 runs before any lock is asked for; attempt ids are fresh.
 */
module RecreationGate {
  import opened Wrappers
  import opened AttemptRecord
  import opened RecreateAttempt
  import L = LifecycleLock

  /** Where the holder of the session's lock is in `run`. */
  datatype Stage =
    | Idle
    | Entering(op: L.LifecycleOp)
    | Rechecking(op: L.LifecycleOp)
    | Running(op: L.LifecycleOp)
    | Leaving(op: L.LifecycleOp)

  datatype Transition = Begins | Marks | Resolves(outcome: Outcome) | Adopts | Approves | Recovers

  /** A store call between its read and the end of its write; `purged` says that its directory was removed meanwhile. */
  datatype Writing = Writing(how: Transition, record: Record, renamed: bool, purged: bool)

  /** It may go on after the body that made it. */
  predicate MayOutlive(wr: Writing) {
    wr.how.Marks? || (wr.how.Resolves? && wr.record.retained.None?)
  }

  datatype World = World(
    sid: string,
    visible: File,
    durable: File,
    active: set<string>,
    lock: L.LockState,
    stage: Stage,
    writing: Option<Writing>,
    booting: bool,
    /** The delete-hard now running could not read the record the second time. */
    blind: bool,
    /** Attempt ids this session has ever had. */
    used: set<string>,
    /** Attempts this process run began, or adopted, since it booted. */
    earned: set<string>)

  function Key(w: World): L.SessionId {
    L.SessionId(w.sid)
  }

  predicate Ungated(op: L.LifecycleOp) {
    op == L.Create || op == L.RecreateResolve
  }

  predicate MayWrite(s: Stage) {
    s.Running? && (s.op == L.Recreate || s.op == L.RecreateResolve)
  }

  function Seen(f: File, w: World): ReadResult {
    Read(f, w.sid, false)
  }

  datatype Event =
    | Arrives(op: L.LifecycleOp, mode: L.Mode)
    | WaitEnds(call: L.CallId)
    | ElsewhereLocks(other: L.Event)
    | GuardReads(ioError: bool)
    | GuardRereads(ioError: bool)
    | BodyEnds
    | Releases
    | BeginReads(id: Identity, extra: Extra, now: string)
    | MarkReads(attempt: string, reason: string, now: string)
    | ResolveReads(attempt: string, outcome: Outcome, reason: string, retained: Option<Retained>, now: string)
    | AdoptReads(attempt: string, now: string, at: string)
    | ApproveReads(now: string)
    | RecoverReads(now: string)
    | WriteFails
    | WriteRenames
    | WriteSyncs
    | Purges
    | DiskFlushes
    | Crashes
    | BootDone
    | OwnsElsewhere(foreign: string)
    | ForgetsElsewhere(foreign: string)

  // ----- Lock events

  predicate AboutOther(w: World, e: L.Event) {
    match e
    case Acquiring(sid, _, _) => sid != Key(w)
    case TimerFiring(c) => c in w.lock.calls && w.lock.calls[c].sid != Key(w)
    case Releasing(sid) => sid != Key(w)
  }

  /** The operation that holds the session's lock after a lock step. */
  ghost function Granted(w: World, lock: L.LockState): Stage {
    if Key(w) in lock.entries then Entering(L.OpOf(lock, lock.entries[Key(w)].holder)) else Idle
  }

  // ----- Store calls: the plan each one made when it read the record

  function PlanOf(w: World, e: Event): Option<Record> {
    var read := Seen(w.visible, w);
    match e
    case BeginReads(id, x, now) => Value(PlanBegin(read, w.sid, id, x, now))
    case MarkReads(a, reason, now) => Value(PlanMarkUncertain(read, a, w.active, reason, now))
    case ResolveReads(a, o, reason, kept, now) => Value(PlanResolve(read, a, w.active, o, reason, kept, now))
    case AdoptReads(a, now, at) => Value(PlanAdopt(read, a, now, at))
    case ApproveReads(now) => Value(PlanApprove(read, now))
    case RecoverReads(now) => PlanRecover(read, now)
    case _ => None
  }

  function Value<T, E>(r: Result<T, E>): Option<T> {
    if r.Ok? then Some(r.value) else None
  }

  predicate IsStoreCall(e: Event) {
    e.BeginReads? || e.MarkReads? || e.ResolveReads? || e.AdoptReads? || e.ApproveReads? || e.RecoverReads?
  }

  /** Who may make a store call, and with which arguments. */
  ghost predicate CallAllowed(w: World, e: Event)
    requires IsStoreCall(e)
  {
    match e
    case BeginReads(id, x, now) =>
      w.stage == Running(L.Recreate) && IdentityOk(id) && ExtraOk(x) && now != "" && id.attemptId !in w.used + w.active
    case MarkReads(_, _, now) => now != ""
    case ResolveReads(_, _, _, kept, now) => MayWrite(w.stage) && now != "" && (kept.Some? ==> RetainedOk(kept.value))
    case AdoptReads(_, now, at) => MayWrite(w.stage) && now != "" && at != ""
    case ApproveReads(now) => MayWrite(w.stage) && now != ""
    case RecoverReads(now) => w.booting && now != ""
  }

  function HowOf(e: Event): Transition
    requires IsStoreCall(e)
  {
    match e
    case BeginReads(_, _, _) => Begins
    case MarkReads(_, _, _) => Marks
    case ResolveReads(_, o, _, _, _) => Resolves(o)
    case AdoptReads(_, _, _) => Adopts
    case ApproveReads(_) => Approves
    case RecoverReads(_) => Recovers
  }

  // ----- Steps

  ghost predicate Enabled(w: World, e: Event) {
    match e
    case Arrives(_, _) => !w.booting
    case WaitEnds(c) => !w.booting && L.Enabled(w.lock, L.TimerFiring(c)) && w.lock.calls[c].sid == Key(w)
    case ElsewhereLocks(o) => !w.booting && L.Enabled(w.lock, o) && AboutOther(w, o)
    case GuardReads(_) => w.stage.Entering?
    case GuardRereads(_) => w.stage.Rechecking?
    case BodyEnds => w.stage.Running? && (w.writing.Some? ==> MayOutlive(w.writing.value))
    case Releases => w.stage.Leaving? && L.Enabled(w.lock, L.Releasing(Key(w)))
    case WriteFails => w.writing.Some?
    case WriteRenames => w.writing.Some? && !w.writing.value.renamed
    case WriteSyncs => w.writing.Some? && w.writing.value.renamed
    case Purges => w.stage == Running(L.DeleteHard)
    case DiskFlushes => true
    case Crashes => true
    case BootDone => w.booting && w.writing.None?
    case OwnsElsewhere(id) => id !in w.used
    case ForgetsElsewhere(id) => id !in w.used
    case _ => w.writing.None? && CallAllowed(w, e) && PlanOf(w, e).Some?
  }

  ghost function Step(w: World, e: Event): World
    requires Enabled(w, e)
  {
    match e
    case Arrives(op, mode) =>
      w.(lock := L.Acquire(w.lock, Key(w), op, mode),
         stage := if Key(w) in w.lock.entries then w.stage else Entering(op))
    case WaitEnds(c) => w.(lock := L.TimeOut(w.lock, c))
    case ElsewhereLocks(o) => w.(lock := L.Step(w.lock, o))
    case GuardReads(ioError) =>
      if Ungated(w.stage.op) then w.(stage := Running(w.stage.op))
      else if !PassesGate(Read(w.visible, w.sid, ioError)) then w.(stage := Leaving(w.stage.op))
      else if w.stage.op == L.DeleteHard then w.(stage := Rechecking(w.stage.op))
      else w.(stage := Running(w.stage.op))
    case GuardRereads(ioError) =>
      if PassesRetainedCheck(Read(w.visible, w.sid, ioError))
      then w.(stage := Running(w.stage.op), blind := ioError)
      else w.(stage := Leaving(w.stage.op))
    case BodyEnds => w.(stage := Leaving(w.stage.op))
    case Releases =>
      var lock := L.Release(w.lock, Key(w));
      w.(lock := lock, stage := Granted(w, lock))
    case WriteFails => w.(writing := None)
    case WriteRenames =>
      w.(visible := Save(w.writing.value.record), writing := Some(w.writing.value.(renamed := true, purged := false)))
    case WriteSyncs => Finish(w.(durable := w.visible, writing := None), w.writing.value)
    case Purges =>
      w.(visible := Absent, writing := if w.writing.Some? then Some(w.writing.value.(purged := true)) else None)
    case DiskFlushes => w.(durable := w.visible)
    case Crashes =>
      w.(visible := w.durable, active := {}, lock := L.INITIAL, stage := Idle, writing := None, booting := true,
         earned := {})
    case BootDone => w.(booting := false)
    case OwnsElsewhere(id) => if w.booting then w else w.(active := w.active + {id}, earned := w.earned + {id})
    case ForgetsElsewhere(id) => w.(active := w.active - {id})
    case _ => Begun(w.(writing := Some(Writing(HowOf(e), PlanOf(w, e).value, false, false))), e)
  }

  /** `begin` owns its attempt before it writes. */
  ghost function Begun(w: World, e: Event): World {
    if e.BeginReads? then
      var a := e.id.attemptId;
      w.(active := w.active + {a}, used := w.used + {a}, earned := w.earned + {a})
    else w
  }

  /** What a store call does once its write is durable. */
  ghost function Finish(w: World, wr: Writing): World {
    var a := wr.record.identity.attemptId;
    match wr.how
    case Resolves(_) => w.(active := w.active - {a})
    case Adopts => w.(active := w.active + {a}, earned := w.earned + {a})
    case _ => w
  }

  // ----- The invariant

  /** The lock is sound, and the stage is that of the session's holder. */
  ghost predicate LockInv(w: World) {
    && L.Inv(w.lock)
    && (Key(w) in w.lock.entries <==> !w.stage.Idle?)
    && (Key(w) in w.lock.entries ==> w.stage.op == L.OpOf(w.lock, w.lock.entries[Key(w)].holder))
    && (w.stage.Rechecking? ==> w.stage.op == L.DeleteHard)
  }

  /** A record's attempts are told apart and all known. */
  ghost predicate Sound(r: Record, w: World) {
    && WellFormed(r, w.sid) && Distinct(Ids(r)) && (forall a :: a in Ids(r) ==> a in w.used)
  }

  ghost predicate FileInv(f: File, w: World) {
    Seen(f, w).Readable? ==> Sound(Seen(f, w).record, w)
  }

  ghost predicate Covers(m: map<string, Outcome>, outer: map<string, Outcome>) {
    forall a :: a in m ==> a in outer && outer[a] == m[a]
  }

  /** An attempt this process owns is unmarked, or was taken over by an operator. */
  ghost predicate OwnedClean(r: Record, w: World) {
    r.identity.attemptId in w.active && r.orphanedAt.Some? ==> Truthy(r.orphanedAt) && Truthy(r.recoveredAt)
  }

  ghost predicate WritingInv(wr: Writing, w: World) {
    var read := Seen(w.visible, w);
    var a := wr.record.identity.attemptId;
    && Sound(wr.record, w) && OwnedClean(wr.record, w)
    && (if wr.purged then wr.how.Resolves? && read.NoRecord?
        else if wr.renamed then read == Readable(wr.record)
        else
          && (!wr.how.Resolves? ==> Outcomes(wr.record) == OutcomesIn(read))
          && (wr.how.Marks? ==> read.Readable? && read.record.state == Open))
    && (match wr.how
        case Marks => wr.record.state == Uncertain
        case Resolves(o) =>
          && (MayWrite(w.stage) || wr.record.retained.None?) && a in w.earned
          && wr.record.state == Resolved && wr.record.outcome == Some(o)
          && (!wr.renamed && !wr.purged ==> Outcomes(wr.record) == OutcomesIn(read)[a := o])
        case Adopts => MayWrite(w.stage) && Truthy(wr.record.orphanedAt) && Truthy(wr.record.recoveredAt)
        case Recovers => w.booting
        case _ => MayWrite(w.stage))
  }

  ghost predicate RecordInv(w: World) {
    && w.sid != ""
    && FileInv(w.visible, w) && FileInv(w.durable, w)
    && w.active <= w.earned
    && (Seen(w.visible, w).Readable? ==> OwnedClean(Seen(w.visible, w).record, w))
    && (w.booting ==> w.active == {} && w.stage == Idle)
    && (w.writing.Some? ==> WritingInv(w.writing.value, w))
  }

  /** What the guard established about the record still holds while the body runs. */
  ghost predicate GateInv(w: World) {
    && (w.stage.Rechecking? ==> PassesGate(Seen(w.visible, w)))
    && (w.stage.Running? && !Ungated(w.stage.op) && w.stage.op != L.Recreate ==> PassesGate(Seen(w.visible, w)))
    && (w.stage.Running? && w.stage.op == L.DeleteHard && !w.blind ==> PassesRetainedCheck(Seen(w.visible, w)))
  }

  ghost predicate Inv(w: World) {
    LockInv(w) && RecordInv(w) && GateInv(w)
  }

  /** The store calls that can be made: by whom, and on which record. Each is to write what its transition plans. */
  lemma CallsPossible(w: World, e: Event)
    requires IsStoreCall(e) && CallAllowed(w, e) && w.writing.None?
    ensures var read := Seen(w.visible, w);
      Enabled(w, e) <==>
        match e
        case BeginReads(_, _, _) => PassesGate(read)
        case MarkReads(a, _, _) => read.Readable? && read.record.identity.attemptId == a && read.record.state == Open && a in w.active
        case ResolveReads(a, o, _, _, _) =>
          && OutcomeOk(o) && read.Readable? && read.record.identity.attemptId == a && a in w.active
          && (read.record.state == Resolved ==> read.record.outcome == Some(o))
          && (Truthy(read.record.orphanedAt) ==> Truthy(read.record.recoveredAt))
        case AdoptReads(a, _, _) =>
          read.Readable? && read.record.identity.attemptId == a && read.record.state != Resolved && Truthy(read.record.orphanedAt)
        case ApproveReads(_) => read.Readable? && read.record.state == Resolved
        case RecoverReads(_) => read.Readable? && read.record.state != Resolved && !Truthy(read.record.orphanedAt)
  {
    hide Read;
  }

  /**
   Ownership. A begin owns its attempt from its call on, an adopt from its return; a resolve gives it up with its return;
   nothing else but a crash changes who owns an attempt of this session.
   */
  lemma OwnershipMoves(w: World, e: Event, a: string)
    requires Enabled(w, e) && a in w.used
    ensures e.BeginReads? ==> Step(w, e).active == w.active + {e.id.attemptId}
    ensures e.AdoptReads? ==> Step(w, e).writing.Some? && Step(w, e).writing.value.how == Adopts
    ensures e.ResolveReads? ==> Step(w, e).writing.Some? && Step(w, e).writing.value.how == Resolves(e.outcome)
    ensures !e.Crashes? && !e.WriteSyncs? ==> (a in Step(w, e).active <==> a in w.active)
    ensures e.WriteSyncs? ==>
      var wr := w.writing.value;
      var own := wr.record.identity.attemptId;
      Step(w, e).active == if wr.how.Resolves? then w.active - {own} else if wr.how.Adopts? then w.active + {own} else w.active
    ensures e.Crashes? ==> Step(w, e).active == {}
  {
    hide PlanOf, PassesGate, PassesRetainedCheck, Read, Granted, L.Acquire, L.TimeOut, L.Release, L.Enabled;
  }

  /**
   What the guard decides: a body runs exactly when its operation is exempt, or the record lets it and, for a hard delete,
   the second read too.
   */
  lemma GuardDecides(w: World, ioError: bool)
    ensures w.stage.Entering? ==>
      var v := Step(w, GuardReads(ioError));
      var pass := PassesGate(Read(w.visible, w.sid, ioError));
      && (v.stage.Leaving? <==> !Ungated(w.stage.op) && !pass)
      && (v.stage.Rechecking? <==> w.stage.op == L.DeleteHard && pass)
      && (v.stage.Running? <==> Ungated(w.stage.op) || (w.stage.op != L.DeleteHard && pass))
      && v == w.(stage := v.stage) && !v.stage.Idle? && !v.stage.Entering? && v.stage.op == w.stage.op
    ensures w.stage.Rechecking? ==>
      var v := Step(w, GuardRereads(ioError));
      && (v.stage == Running(w.stage.op) <==> PassesRetainedCheck(Read(w.visible, w.sid, ioError)))
      && (v.stage != Running(w.stage.op) ==> v.stage == Leaving(w.stage.op))
      && (v.stage.Running? ==> v.blind == ioError)
  {
    hide Read;
  }

  /** The world follows the lock: its arrivals, timeouts and releases are the lock's, and a release lets the next body in. */
  lemma LockFollows(w: World, e: Event)
    requires Enabled(w, e)
    ensures e.Arrives? ==> Step(w, e).lock == L.Acquire(w.lock, Key(w), e.op, e.mode)
    ensures e.Arrives? && w.stage == Idle && Key(w) !in w.lock.entries ==> Step(w, e).stage == Entering(e.op)
    ensures e.WaitEnds? ==> Step(w, e).lock == L.TimeOut(w.lock, e.call)
    ensures e.ElsewhereLocks? ==> Step(w, e).lock == L.Step(w.lock, e.other)
    ensures e.BodyEnds? ==> Step(w, e) == w.(stage := Leaving(w.stage.op))
    ensures e.Releases? ==> Step(w, e).lock == L.Release(w.lock, Key(w))
    ensures e.Releases? ==> (Step(w, e).stage == Idle <==> Key(w) !in Step(w, e).lock.entries)
  {
    hide PlanOf, PassesGate, PassesRetainedCheck, Read, L.Acquire, L.TimeOut, L.Release, L.Enabled, L.Step;
  }

  /**
   A write that fails changes neither disk, one that is synced is durable; a crash wipes the process and keeps what is
   durable.
   */
  lemma DiskFollows(w: World, e: Event)
    requires Enabled(w, e)
    ensures e.WriteFails? ==> Step(w, e) == w.(writing := None)
    ensures e.WriteRenames? ==> Step(w, e).visible == Save(w.writing.value.record) && Step(w, e).durable == w.durable
    ensures e.WriteSyncs? ==> Step(w, e).durable == Step(w, e).visible == w.visible && Step(w, e).writing == None
    ensures e.Crashes? ==>
      var v := Step(w, e);
      && v.visible == v.durable == w.durable && v.active == {} && v.earned == {} && v.used == w.used
      && v.stage == Idle && v.writing == None && v.lock == L.INITIAL && v.booting
    ensures e.BootDone? ==> Step(w, e) == w.(booting := false)
  {
    hide PlanOf, PassesGate, PassesRetainedCheck, Read, Granted, L.Acquire, L.TimeOut, L.Release, L.Enabled;
  }

  // ----- What a step leaves alone

  predicate WritesDisk(e: Event) {
    e.WriteRenames? || e.WriteSyncs? || e.Purges? || e.DiskFlushes? || e.Crashes?
  }

  lemma DiskFrame(w: World, e: Event)
    requires Enabled(w, e)
    ensures Step(w, e).sid == w.sid
    ensures !WritesDisk(e) ==> Step(w, e).visible == w.visible && Step(w, e).durable == w.durable
  {
    hide PlanOf, CallAllowed, PassesGate, PassesRetainedCheck, Read, Granted, L.Acquire, L.TimeOut, L.Release, L.Enabled;
  }

  predicate MovesLock(e: Event) {
    e.Arrives? || e.WaitEnds? || e.ElsewhereLocks? || e.Releases? || e.Crashes?
  }

  lemma LockFrame(w: World, e: Event)
    requires Enabled(w, e) && !MovesLock(e)
    ensures var v := Step(w, e);
      && v.lock == w.lock && v.sid == w.sid
      && (v.stage.Idle? <==> w.stage.Idle?)
      && (!v.stage.Idle? ==> v.stage.op == w.stage.op)
      && (v.stage.Rechecking? ==> v.stage == w.stage || v.stage.op == L.DeleteHard)
  {
    hide PlanOf, CallAllowed, PassesGate, PassesRetainedCheck, Read, L.Acquire, L.TimeOut, L.Release, L.Enabled;
  }

  predicate MovesStage(e: Event) {
    e.Arrives? || e.WaitEnds? || e.ElsewhereLocks? || e.GuardReads? || e.GuardRereads? || e.BodyEnds? || e.Releases?
  }

  lemma StageFrame(w: World, e: Event)
    requires Enabled(w, e) && MovesStage(e) && LockInv(w) && (w.booting ==> w.stage == Idle)
    requires w.writing.Some? ==> MayOutlive(w.writing.value) || w.stage.Running? || w.booting
    ensures Step(w, e) == w.(lock := Step(w, e).lock, stage := Step(w, e).stage, blind := Step(w, e).blind)
    ensures w.writing.Some? && !MayOutlive(w.writing.value) ==> Step(w, e).stage == w.stage
    ensures w.booting ==> Step(w, e).stage == Idle
  {
    hide PassesGate, PassesRetainedCheck, Read, L.Acquire, L.TimeOut, L.Release, L.Enabled, L.Inv, L.OpOf, Granted;
  }

  // ----- Every step keeps it: the lock

  lemma LockKept(w: World, e: Event)
    requires LockInv(w) && Enabled(w, e)
    ensures LockInv(Step(w, e))
  {
    hide Enabled, Step, L.Inv, L.OpOf, L.Acquire, L.TimeOut, L.Release;
    match e
    case Arrives(op, mode) => ArrivalKept(w, op, mode);
    case WaitEnds(c) => WaitEndKept(w, c);
    case ElsewhereLocks(o) => ElsewhereKept(w, o);
    case Releases => ReleaseKept(w);
    case Crashes => CrashLock(w);
    case _ =>
      LockFrame(w, e);
      StageKept(w, Step(w, e));
  }

  /** A step that leaves the lock alone and the holder's operation as it is. */
  lemma StageKept(w: World, v: World)
    requires LockInv(w) && v.lock == w.lock && v.sid == w.sid
    requires v.stage.Idle? <==> w.stage.Idle?
    requires !v.stage.Idle? ==> v.stage.op == w.stage.op
    requires v.stage.Rechecking? ==> v.stage.op == L.DeleteHard
    ensures LockInv(v)
  {
    hide L.Inv;
  }

  lemma CrashLock(w: World)
    ensures LockInv(Step(w, Crashes))
  {
    hide L.OpOf;
  }

  lemma ArrivalKept(w: World, op: L.LifecycleOp, mode: L.Mode)
    requires LockInv(w) && Enabled(w, Arrives(op, mode))
    ensures LockInv(Step(w, Arrives(op, mode)))
  {
    hide L.Inv, L.Waiting;
    L.AcquireFacts(w.lock, Key(w), op, mode);
    HolderKnown(w);
  }

  lemma HolderKnown(w: World)
    requires LockInv(w)
    ensures Key(w) in w.lock.entries ==> w.lock.entries[Key(w)].holder in w.lock.calls
  {
    if Key(w) in w.lock.entries {
      assert L.EntryOk(w.lock, Key(w));
    }
  }

  lemma WaitEndKept(w: World, c: L.CallId)
    requires LockInv(w) && Enabled(w, WaitEnds(c))
    ensures LockInv(Step(w, WaitEnds(c)))
  {
    assert c in L.Waiting(w.lock);
    hide L.Inv, L.Waiting;
    L.TimeOutFacts(w.lock, c);
    HolderKnown(w);
  }

  lemma ElsewhereKept(w: World, o: L.Event)
    requires LockInv(w) && Enabled(w, ElsewhereLocks(o))
    ensures LockInv(Step(w, ElsewhereLocks(o)))
  {
    hide L.Inv, L.EntryOk, L.Acquire, L.TimeOut, L.Release;
    HolderKnown(w);
    match o
    case Acquiring(sid, op, mode) => L.AcquireFacts(w.lock, sid, op, mode);
    case TimerFiring(c) =>
      assert c in L.Waiting(w.lock);
      L.TimeOutFacts(w.lock, c);
    case Releasing(sid) => L.ReleaseFacts(w.lock, sid);
  }

  lemma ReleaseKept(w: World)
    requires LockInv(w) && Enabled(w, Releases)
    ensures LockInv(Step(w, Releases))
  {
    hide L.Inv, L.EntryOk, L.Waiting, L.Release, L.Frames;
    L.ReleaseFacts(w.lock, Key(w));
  }

  // ----- The record

  /** A file, and what is known of it, mean the same in a world that knows at least as many attempts. */
  lemma FileInvGrows(f: File, w: World, v: World)
    requires FileInv(f, w) && v.sid == w.sid && w.used <= v.used
    ensures FileInv(f, v)
  {
    hide WellFormed, Distinct, Ids, Read;
  }

  lemma SavedReads(r: Record, w: World)
    requires Sound(r, w)
    ensures Seen(Save(r), w) == Readable(r) && FileInv(Save(r), w)
  {
    ReadSaved(r, w.sid);
  }

  /** Steps of the lock and of the body's stage leave the record's side alone. */
  lemma StageMovesKept(w: World, v: World)
    requires RecordInv(w)
    requires v == w.(lock := v.lock, stage := v.stage, blind := v.blind)
    requires w.writing.Some? && !MayOutlive(w.writing.value) ==> v.stage == w.stage
    requires w.booting ==> v.stage == Idle
    ensures RecordInv(v)
  {
    hide WellFormed, Distinct, Ids, Read, Outcomes, PastOutcomes;
    assert FileInv(v.visible, v) && FileInv(v.durable, v);
    if w.writing.Some? {
      assert WritingInv(w.writing.value, v);
    }
  }

  /** The record written when an allowed store call reads: sound, and losing no outcome. */
  lemma PlannedOk(w: World, e: Event)
    requires RecordInv(w) && IsStoreCall(e) && Enabled(w, e)
    ensures WritingInv(Writing(HowOf(e), PlanOf(w, e).value, false, false), Step(w, e))
  {
    var read := Seen(w.visible, w);
    match e
    case BeginReads(id, x, now) => PlannedBegin(w, id, x, now);
    case MarkReads(a, reason, now) => PlannedMark(w, a, reason, now);
    case ResolveReads(a, o, reason, kept, now) => PlannedResolve(w, a, o, reason, kept, now);
    case AdoptReads(a, now, at) => PlannedAdopt(w, a, now, at);
    case ApproveReads(now) => PlannedApprove(w, now);
    case RecoverReads(now) => PlannedRecover(w, now);
  }

  lemma PlannedBegin(w: World, id: Identity, x: Extra, now: string)
    requires RecordInv(w) && Enabled(w, BeginReads(id, x, now))
    ensures var e := BeginReads(id, x, now); WritingInv(Writing(HowOf(e), PlanOf(w, e).value, false, false), Step(w, e))
  {
    hide WellFormed, Distinct, Read, Outcomes;
    var read := Seen(w.visible, w);
    var r := PlanBegin(read, w.sid, id, x, now).value;
    BeginSucceeds(read, w.sid, id, x, now);
    assert forall a :: a in Ids(r) ==> a == id.attemptId || (read.Readable? && a in Ids(read.record));
  }

  lemma PlannedMark(w: World, a: string, reason: string, now: string)
    requires RecordInv(w) && Enabled(w, MarkReads(a, reason, now))
    ensures var e := MarkReads(a, reason, now); WritingInv(Writing(HowOf(e), PlanOf(w, e).value, false, false), Step(w, e))
  {
    hide WellFormed, Distinct, Read, Outcomes;
    MarkSucceeds(Seen(w.visible, w), w.sid, a, w.active, reason, now);
  }

  lemma PlannedResolve(w: World, a: string, o: Outcome, reason: string, kept: Option<Retained>, now: string)
    requires RecordInv(w) && Enabled(w, ResolveReads(a, o, reason, kept, now))
    ensures var e := ResolveReads(a, o, reason, kept, now);
      WritingInv(Writing(HowOf(e), PlanOf(w, e).value, false, false), Step(w, e))
  {
    hide WellFormed, Distinct, Read, Outcomes;
    ResolveSucceeds(Seen(w.visible, w), w.sid, a, w.active, o, reason, kept, now);
  }

  lemma PlannedAdopt(w: World, a: string, now: string, at: string)
    requires RecordInv(w) && Enabled(w, AdoptReads(a, now, at))
    ensures var e := AdoptReads(a, now, at); WritingInv(Writing(HowOf(e), PlanOf(w, e).value, false, false), Step(w, e))
  {
    hide WellFormed, Distinct, Read, Outcomes;
    AdoptSucceeds(Seen(w.visible, w), w.sid, a, now, at);
  }

  lemma PlannedApprove(w: World, now: string)
    requires RecordInv(w) && Enabled(w, ApproveReads(now))
    ensures var e := ApproveReads(now); WritingInv(Writing(HowOf(e), PlanOf(w, e).value, false, false), Step(w, e))
  {
    hide WellFormed, Distinct, Read, Outcomes;
    ApproveSucceeds(Seen(w.visible, w), w.sid, now);
  }

  lemma PlannedRecover(w: World, now: string)
    requires RecordInv(w) && Enabled(w, RecoverReads(now))
    ensures var e := RecoverReads(now); WritingInv(Writing(HowOf(e), PlanOf(w, e).value, false, false), Step(w, e))
  {
    hide WellFormed, Distinct, Read, Outcomes;
    RecoverSucceeds(Seen(w.visible, w), w.sid, now);
  }

  lemma CallKept(w: World, e: Event)
    requires RecordInv(w) && IsStoreCall(e) && Enabled(w, e)
    ensures RecordInv(Step(w, e))
  {
    var v := Step(w, e);
    PlannedOk(w, e);
    hide WellFormed, Distinct, Ids, Read, Outcomes, PlanOf, WritingInv;
    FileInvGrows(w.visible, w, v);
    FileInvGrows(w.durable, w, v);
    if Seen(w.visible, w).Readable? {
      NotYetOwned(w, e);
    }
  }

  /** A freshly begun attempt is not the one on disk. */
  lemma NotYetOwned(w: World, e: Event)
    requires RecordInv(w) && IsStoreCall(e) && Enabled(w, e) && Seen(w.visible, w).Readable?
    ensures OwnedClean(Seen(w.visible, w).record, Step(w, e))
  {
    hide WellFormed, Distinct, Read, Outcomes, PlanOf, WritingInv;
    var r := Seen(w.visible, w).record;
    assert r.identity.attemptId == Ids(r)[0];
  }

  lemma RenameKept(w: World)
    requires RecordInv(w) && Enabled(w, WriteRenames)
    ensures RecordInv(Step(w, WriteRenames))
  {
    hide WellFormed, Distinct, Ids, Read, Outcomes;
    var wr := w.writing.value;
    SavedReads(wr.record, w);
    assert FileInv(Step(w, WriteRenames).durable, Step(w, WriteRenames));
  }

  lemma SyncKept(w: World)
    requires RecordInv(w) && Enabled(w, WriteSyncs)
    ensures RecordInv(Step(w, WriteSyncs))
  {
    SyncedKept(w);
    hide Enabled, Finish, RecordInv;
  }

  lemma SyncedKept(w: World)
    requires RecordInv(w) && w.writing.Some? && w.writing.value.renamed
    ensures RecordInv(Finish(w.(durable := w.visible, writing := None), w.writing.value))
  {
    hide WellFormed, Distinct, Ids, Read, Outcomes;
    var v := Finish(w.(durable := w.visible, writing := None), w.writing.value);
    FileInvGrows(w.visible, w, v);
    hide FileInv;
  }

  /** Giving up a write, flushing, crashing and finishing the boot. */
  lemma DiskEventKept(w: World, e: Event)
    requires RecordInv(w) && Enabled(w, e)
    requires e.WriteFails? || e.DiskFlushes? || e.Crashes? || e.BootDone?
    ensures RecordInv(Step(w, e))
  {
    hide WellFormed, Distinct, Ids, Read, Outcomes, PlanOf, WritingInv, L.Inv;
    var v := Step(w, e);
    assert FileInv(v.visible, v) && FileInv(v.durable, v);
    if e.DiskFlushes? && w.writing.Some? {
      WritingStays(w, v);
    }
  }

  /** The gate lets no hard delete run beside a mark, so only a resolve can be overtaken by a purge. */
  lemma PurgeKept(w: World)
    requires RecordInv(w) && GateInv(w) && Enabled(w, Purges)
    ensures RecordInv(Step(w, Purges))
  {
    hide WellFormed, Distinct, Ids, Outcomes;
    var v := Step(w, Purges);
    assert Seen(v.visible, v).NoRecord?;
    hide Read;
    FileInvGrows(w.durable, w, v);
  }

  /** Taking up or dropping an attempt of another session. */
  lemma ForeignKept(w: World, e: Event)
    requires RecordInv(w) && Enabled(w, e) && (e.OwnsElsewhere? || e.ForgetsElsewhere?)
    ensures RecordInv(Step(w, e))
  {
    hide WellFormed, Distinct, Read, Outcomes, PlanOf, WritingInv, L.Inv;
    var v := Step(w, e);
    assert FileInv(v.visible, v) && FileInv(v.durable, v);
    if Seen(v.visible, v).Readable? {
      assert Seen(v.visible, v).record.identity.attemptId == Ids(Seen(v.visible, v).record)[0];
    }
    if w.writing.Some? {
      WritingKnown(w);
      WritingStays(w, v);
    }
  }

  lemma WritingKnown(w: World)
    requires w.writing.Some? && WritingInv(w.writing.value, w)
    ensures w.writing.value.record.identity.attemptId in w.used
  {
    hide WellFormed, Distinct, Read, Outcomes;
    assert w.writing.value.record.identity.attemptId == Ids(w.writing.value.record)[0];
  }

  /** What is known of a write depends on the visible file, the body's stage, and whether its attempt is owned. */
  lemma WritingStays(w: World, v: World)
    requires w.writing.Some? && WritingInv(w.writing.value, w)
    requires v == w.(durable := v.durable, active := v.active, earned := v.earned) && w.earned <= v.earned
    requires w.writing.value.record.identity.attemptId in v.active ==> w.writing.value.record.identity.attemptId in w.active
    ensures WritingInv(w.writing.value, v)
  {
    hide WellFormed, Distinct, Ids, Read, Outcomes;
  }

  lemma RecordKept(w: World, e: Event)
    requires Inv(w) && Enabled(w, e)
    ensures RecordInv(Step(w, e))
  {
    hide Enabled, Step, LockInv, GateInv, RecordInv, CallAllowed, PlanOf;
    if IsStoreCall(e) {
      CallKept(w, e);
    } else if MovesStage(e) {
      WriterRuns(w);
      StageFrame(w, e);
      StageMovesKept(w, Step(w, e));
    } else if e.WriteRenames? {
      RenameKept(w);
    } else if e.WriteSyncs? {
      SyncKept(w);
    } else if e.OwnsElsewhere? || e.ForgetsElsewhere? {
      ForeignKept(w, e);
    } else if e.Purges? {
      PurgeKept(w);
    } else {
      DiskEventKept(w, e);
    }
  }

  /** Every write that may not outlive its body belongs to the running body, or to the boot. */
  lemma WriterRuns(w: World)
    requires RecordInv(w)
    ensures w.booting ==> w.stage == Idle
    ensures w.writing.Some? ==> MayOutlive(w.writing.value) || w.stage.Running? || w.booting
  {
    hide Sound, Outcomes, Read, FileInv;
  }

  // ----- The gate

  lemma GateKept(w: World, e: Event)
    requires Inv(w) && Enabled(w, e)
    ensures GateInv(Step(w, e))
  {
    hide Step, Enabled, LockInv, RecordInv, GateInv;
    if e.WriteRenames? {
      RenameKeepsGate(w);
    } else if e.Purges? {
      PurgeKeepsGate(w);
    } else if e.GuardReads? || e.GuardRereads? {
      GuardGivesGate(w, e);
    } else {
      ElsewhereKeepsGate(w, e);
    }
  }

  lemma GuardGivesGate(w: World, e: Event)
    requires GateInv(w) && Enabled(w, e) && (e.GuardReads? || e.GuardRereads?)
    ensures GateInv(Step(w, e))
  {
    IoErrorRefuses(w.visible, w.sid);
    hide Read;
  }

  /** Any other step leaves the visible file alone, or leaves the body or the process. */
  lemma ElsewhereKeepsGate(w: World, e: Event)
    requires GateInv(w) && Enabled(w, e) && !e.WriteRenames? && !e.Purges? && !e.GuardReads? && !e.GuardRereads?
    ensures GateInv(Step(w, e))
  {
    if !e.Crashes? {
      DiskStays(w, e);
      StageLeaves(w, e);
    }
    hide Enabled, Read, PassesGate, PassesRetainedCheck, PlanOf, L.Acquire, L.Release, L.TimeOut, Granted;
  }

  lemma DiskStays(w: World, e: Event)
    requires Enabled(w, e) && !e.WriteRenames? && !e.Purges? && !e.Crashes?
    ensures Step(w, e).visible == w.visible && Step(w, e).sid == w.sid
  {
    if !e.WriteSyncs? && !e.DiskFlushes? {
      DiskFrame(w, e);
      hide Step, Enabled;
    }
  }

  lemma StageLeaves(w: World, e: Event)
    requires Enabled(w, e) && !e.GuardReads? && !e.GuardRereads?
    ensures (Step(w, e).stage == w.stage && Step(w, e).blind == w.blind)
      || (!Step(w, e).stage.Running? && !Step(w, e).stage.Rechecking?)
  {
    hide PlanOf, CallAllowed, Read, L.Acquire, L.TimeOut, L.Release, L.Enabled, L.OpOf;
  }

  lemma IoErrorRefuses(f: File, sid: string)
    ensures !PassesGate(Read(f, sid, true)) && PassesRetainedCheck(Read(f, sid, true))
  {
  }

  lemma RenameKeepsGate(w: World)
    requires RecordInv(w) && GateInv(w) && Enabled(w, WriteRenames)
    ensures GateInv(Step(w, WriteRenames))
  {
    hide WellFormed, Distinct, Ids, Read, Outcomes;
    SavedReads(w.writing.value.record, w);
  }

  lemma PurgeKeepsGate(w: World)
    requires GateInv(w) && Enabled(w, Purges)
    ensures GateInv(Step(w, Purges))
  {
  }

  lemma StepKeepsInv(w: World, e: Event)
    requires Inv(w) && Enabled(w, e)
    ensures Inv(Step(w, e))
  {
    hide LockInv, RecordInv, GateInv;
    LockKept(w, e);
    RecordKept(w, e);
    GateKept(w, e);
  }

  // ----- Runs

  /** A process about to boot over a disk whose record, if it can be read, tells its attempts apart. */
  ghost predicate Initial(w: World) {
    && w.sid != "" && w.visible == w.durable && FileInv(w.visible, w)
    && w.active == {} && w.lock == L.INITIAL && w.stage == Idle && w.writing == None && w.booting
    && w.earned == {}
  }

  ghost predicate IsRun(run: seq<World>, events: seq<Event>) {
    && |run| == |events| + 1 && Initial(run[0])
    && forall i :: 0 <= i < |events| ==> Enabled(run[i], events[i]) && run[i + 1] == Step(run[i], events[i])
  }

  lemma InitialInv(w: World)
    requires Initial(w)
    ensures Inv(w)
  {
    hide WellFormed, Distinct, Ids, Read, Outcomes;
  }

  lemma {:induction false} ReachableInv(run: seq<World>, events: seq<Event>, n: nat)
    requires IsRun(run, events) && n < |run|
    ensures Inv(run[n])
    decreases n
  {
    hide Inv, Initial, Enabled, Step;
    if n == 0 {
      InitialInv(run[0]);
    } else {
      ReachableInv(run, events, n - 1);
      StepKeepsInv(run[n - 1], events[n - 1]);
    }
  }

  /**
   Fail closed: in every run, whatever crashed before, while the body of an operation other than
   create, recreate and recreate-resolve runs, its session's record is absent or resolved.
   */
  lemma GateHolds(run: seq<World>, events: seq<Event>, n: nat)
    requires IsRun(run, events) && n < |run|
    requires run[n].stage.Running? && !Ungated(run[n].stage.op) && run[n].stage.op != L.Recreate
    ensures PassesGate(Seen(run[n].visible, run[n]))
  {
    ReachableInv(run, events, n);
    hide LockInv, RecordInv, Read;
  }

  /** A hard delete whose second read could see the record never runs while a container is retained. */
  lemma HardDeleteHolds(run: seq<World>, events: seq<Event>, n: nat)
    requires IsRun(run, events) && n < |run|
    requires run[n].stage == Running(L.DeleteHard) && !run[n].blind
    ensures PassesGate(Seen(run[n].visible, run[n]))
    ensures PassesRetainedCheck(Seen(run[n].visible, run[n]))
  {
    ReachableInv(run, events, n);
    hide LockInv, RecordInv, Read;
  }

  /** But a hard delete starts on a retaining record exactly when its second read fails. */
  lemma HardDeleteStarts(w: World, ioError: bool)
    requires Inv(w) && w.stage.Rechecking?
    ensures Enabled(w, GuardRereads(ioError))
    ensures Step(w, GuardRereads(ioError)).stage.Running? <==> ioError || PassesRetainedCheck(Seen(w.visible, w))
  {
    hide Inv;
    IoErrorRefuses(w.visible, w.sid);
  }

  /** A refused operation never runs; releasing hands the lock to the first waiter, who meets the guard in turn. */
  lemma RefusedHandsOver(w: World, ioError: bool)
    requires Inv(w) && w.stage.Entering? && !Ungated(w.stage.op)
    requires !PassesGate(Read(w.visible, w.sid, ioError))
    ensures var v := Step(w, GuardReads(ioError));
      && v == w.(stage := Leaving(w.stage.op)) && Enabled(v, Releases)
      && Key(w) in w.lock.entries
      && var queue, u := w.lock.entries[Key(w)].queue, Step(v, Releases);
      && u.visible == w.visible
      && (if queue == [] then u.stage == Idle && Key(w) !in u.lock.entries
          else u.stage == Entering(L.OpOf(w.lock, queue[0])) && u.lock.entries[Key(w)] == L.Held(queue[0], queue[1..]))
  {
    assert L.EntryOk(w.lock, Key(w));
    hide RecordInv, GateInv, Read;
  }

  // ----- Ownership and permanence

  /** The rename of a resolve by a process run that began the attempt, or adopted it, since it booted. */
  ghost predicate OwnerResolves(w: World, e: Event, a: string) {
    && e == WriteRenames && w.writing.Some? && w.writing.value.how.Resolves?
    && w.writing.value.record.identity.attemptId == a && a in w.earned
  }

  /**
   An attempt gets an outcome on the visible disk in no other way, except that a crash brings a purged record back, or a
   write that a purge overtook renames a record whose other outcomes it read before.
   */
  lemma OnlyOwnersResolve(run: seq<World>, events: seq<Event>, n: nat, a: string)
    requires IsRun(run, events) && n < |events|
    requires a in OutcomesIn(Seen(run[n + 1].visible, run[n + 1])) && a !in OutcomesIn(Seen(run[n].visible, run[n]))
    ensures
      || OwnerResolves(run[n], events[n], a)
      || (events[n].Crashes? && a in OutcomesIn(Seen(run[n].durable, run[n])))
      || (events[n].WriteRenames? && run[n].writing.value.purged && a in Outcomes(run[n].writing.value.record))
  {
    ReachableInv(run, events, n);
    NewlyTold(run[n], events[n], a);
  }

  lemma NewlyTold(w: World, e: Event, a: string)
    requires Inv(w) && Enabled(w, e)
    requires a in OutcomesIn(Seen(Step(w, e).visible, Step(w, e))) && a !in OutcomesIn(Seen(w.visible, w))
    ensures
      || OwnerResolves(w, e, a)
      || (e.Crashes? && a in OutcomesIn(Seen(w.durable, w)))
      || (e.WriteRenames? && w.writing.value.purged && a in Outcomes(w.writing.value.record))
  {
    hide LockInv, GateInv, WellFormed, Distinct, Ids, Read, Outcomes, PlanOf;
    if WritesDisk(e) {
      if e.WriteRenames? {
        SavedReads(w.writing.value.record, w);
      } else if e.Purges? {
        PurgedTells(w);
      }
    } else {
      DiskFrame(w, e);
      hide Step, Enabled;
    }
  }

  lemma PurgedTells(w: World)
    ensures Seen(Absent, w).NoRecord?
  {
  }

  /** Where the outcomes that the disk or a write tells come from: the visible disk told them before. */
  ghost predicate ToldBefore(run: seq<World>, n: nat, a: string)
    requires n < |run|
  {
    exists k :: 0 <= k <= n && a in OutcomesIn(Seen(run[k].visible, run[k]))
  }

  ghost predicate Sourced(run: seq<World>, n: nat, a: string)
    requires n < |run|
  {
    var w := run[n];
    && (a in OutcomesIn(Seen(w.durable, w)) ==> ToldBefore(run, n, a))
    && (w.writing.Some? && a in Outcomes(w.writing.value.record) ==>
      ToldBefore(run, n, a) || (w.writing.value.how.Resolves? && w.writing.value.record.identity.attemptId == a && a in w.earned))
  }

  lemma {:induction false} EverySourced(run: seq<World>, events: seq<Event>, n: nat, a: string)
    requires IsRun(run, events) && n < |run|
    ensures Sourced(run, n, a)
    decreases n
  {
    hide Initial, Enabled, Step, Inv, Read, Outcomes, Sourced, ToldBefore;
    if n == 0 {
      SourcedAtFirst(run, a);
    } else {
      EverySourced(run, events, n - 1, a);
      ReachableInv(run, events, n - 1);
      StepSourced(run[n - 1], events[n - 1], a);
      ToldLonger(run, n - 1, a);
      SourcedNext(run, n - 1, a);
    }
  }

  lemma SourcedAtFirst(run: seq<World>, a: string)
    requires |run| > 0 && Initial(run[0])
    ensures Sourced(run, 0, a)
  {
    hide Read, Outcomes;
  }

  lemma ToldLonger(run: seq<World>, n: nat, a: string)
    requires n + 1 < |run|
    ensures ToldBefore(run, n + 1, a) <==> ToldBefore(run, n, a) || a in OutcomesIn(Seen(run[n + 1].visible, run[n + 1]))
  {
    hide Read, Outcomes;
  }

  /** One step: what the durable copy and a write tell, told by what there was before. */
  ghost predicate Passed(w: World, v: World, a: string) {
    var before := a in OutcomesIn(Seen(w.visible, w)) || a in OutcomesIn(Seen(w.durable, w));
    && (a in OutcomesIn(Seen(v.durable, v)) ==> before)
    && (v.writing.Some? && a in Outcomes(v.writing.value.record) ==>
      || before
      || (w.writing.Some? && v.writing.value.record == w.writing.value.record && v.writing.value.how == w.writing.value.how)
      || (v.writing.value.how.Resolves? && v.writing.value.record.identity.attemptId == a && a in v.earned))
    && (v.writing.Some? && w.writing.Some? ==> w.earned <= v.earned)
  }

  lemma SourcedNext(run: seq<World>, n: nat, a: string)
    requires n + 1 < |run| && Sourced(run, n, a) && Passed(run[n], run[n + 1], a)
    requires ToldBefore(run, n + 1, a) <==> ToldBefore(run, n, a) || a in OutcomesIn(Seen(run[n + 1].visible, run[n + 1]))
    ensures Sourced(run, n + 1, a)
  {
    hide Read, Outcomes;
    assert a in OutcomesIn(Seen(run[n].visible, run[n])) ==> ToldBefore(run, n, a);
    hide ToldBefore;
  }

  lemma StepSourced(w: World, e: Event, a: string)
    requires Inv(w) && Enabled(w, e)
    ensures Passed(w, Step(w, e), a)
  {
    hide LockInv, GateInv, WellFormed, Distinct, Ids, Read, Outcomes, PlanOf;
    if IsStoreCall(e) {
      PlannedIds(w, e);
      PlannedOk(w, e);
      DiskFrame(w, e);
    } else if WritesDisk(e) {
      DiskPasses(w, e, a);
      hide Step, Enabled;
    } else {
      DiskFrame(w, e);
      WritingFrame(w, e);
      hide Step, Enabled;
    }
  }

  lemma DiskPasses(w: World, e: Event, a: string)
    requires Enabled(w, e) && WritesDisk(e)
    ensures Passed(w, Step(w, e), a)
  {
    hide Read, Outcomes, PlanOf;
  }

  /** So whatever outcome an attempt ever gets, an owner's resolve was the first to show it. */
  lemma FirstToldByOwner(run: seq<World>, events: seq<Event>, n: nat, a: string)
    requires IsRun(run, events) && n < |events| && !ToldBefore(run, n, a)
    ensures a in OutcomesIn(Seen(run[n + 1].visible, run[n + 1])) ==> OwnerResolves(run[n], events[n], a)
  {
    if a in OutcomesIn(Seen(run[n + 1].visible, run[n + 1])) {
      assert a !in OutcomesIn(Seen(run[n].visible, run[n]));
      OnlyOwnersResolve(run, events, n, a);
      EverySourced(run, events, n, a);
    }
    hide Step, Enabled, Initial, Read, Outcomes, ToldBefore;
  }

  /** `earned` is what it says: since the last boot, a begin was called for the attempt or an adopt of it returned. */
  lemma EarnedByThisProcess(w: World, e: Event, a: string)
    requires Enabled(w, e) && a in w.used && a in Step(w, e).earned && a !in w.earned
    ensures (e.WriteSyncs? && w.writing.value.how.Adopts? && w.writing.value.record.identity.attemptId == a)
  {
    hide PlanOf, PassesGate, PassesRetainedCheck, Granted, L.Acquire, L.Release, L.TimeOut;
  }

  // ----- How long an outcome stays

  ghost predicate Accounts(f: File, w: World, a: string, o: Outcome) {
    a in OutcomesIn(Seen(f, w)) && OutcomesIn(Seen(f, w))[a] == o
  }

  ghost predicate Unlisted(f: File, w: World, a: string) {
    Seen(f, w).Readable? ==> a !in Ids(Seen(f, w).record)
  }

  /** Whether the visible disk, the durable disk and the write under way tell an outcome. */
  datatype Held = Held(visible: bool, durable: bool, pending: bool)

  function After(h: Held, e: Event): Held {
    match e
    case WriteRenames => h.(visible := h.pending)
    case WriteSyncs => h.(durable := h.visible)
    case DiskFlushes => h.(durable := h.visible)
    case Purges => h.(visible := false)
    case Crashes => h.(visible := h.durable)
    case _ => if IsStoreCall(e) then h.(pending := h.visible) else h
  }

  /** Told from the events alone: a purge takes an outcome away, a crash before it is flushed gives it back. */
  function HeldAt(h: Held, events: seq<Event>, m: nat, n: nat): Held
    requires m <= n <= |events|
  {
    if m == n then h else After(HeldAt(h, events, m, n - 1), events[n - 1])
  }

  /** `resolve` returns: its write is synced. `purged` says that a hard delete removed the record before that. */
  predicate Returns(w: World, e: Event, a: string, o: Outcome, purged: bool) {
    && e.WriteSyncs? && w.writing.Some? && w.writing.value.how == Resolves(o)
    && w.writing.value.record.identity.attemptId == a && w.writing.value.purged == purged
  }

  ghost predicate HoldsAs(w: World, a: string, o: Outcome, h: Held) {
    && a in w.used
    && (if h.visible then Accounts(w.visible, w, a, o) else Unlisted(w.visible, w, a))
    && (if h.durable then Accounts(w.durable, w, a, o) else Unlisted(w.durable, w, a))
    && (w.writing.Some? ==>
      var r := w.writing.value.record;
      if h.pending then a in Outcomes(r) && Outcomes(r)[a] == o else a !in Ids(r))
  }

  /**
   Once `resolve` has returned, its outcome is on the visible and on the durable disk exactly as purges, flushes, crashes
   and overtaken writes since say: with no purge, always; after one, until a crash before the next flush brings it back.
   Where it is not, the attempt is not listed at all.
   */
  lemma SettledExactly(run: seq<World>, events: seq<Event>, m: nat, n: nat, a: string, o: Outcome, purged: bool)
    requires IsRun(run, events) && m < n < |run| && Returns(run[m], events[m], a, o, purged)
    ensures var w, h := run[n], HeldAt(Held(!purged, !purged, !purged), events, m + 1, n);
      && (Accounts(w.visible, w, a, o) <==> h.visible) && (!h.visible ==> Unlisted(w.visible, w, a))
      && (Accounts(w.durable, w, a, o) <==> h.durable) && (!h.durable ==> Unlisted(w.durable, w, a))
  {
    SettledHolds(run, events, m, n, a, o, purged);
    UnlistedTellsNothing(run[n].visible, run[n], a);
    UnlistedTellsNothing(run[n].durable, run[n], a);
    hide IsRun, Unlisted, Returns;
  }

  lemma UnlistedTellsNothing(f: File, w: World, a: string)
    ensures Unlisted(f, w, a) ==> a !in OutcomesIn(Seen(f, w))
  {
    hide Read;
    if Seen(f, w).Readable? && Unlisted(f, w, a) {
      NotListed(Seen(f, w).record, a);
    }
  }

  lemma NotListed(r: Record, a: string)
    requires a !in Ids(r)
    ensures a !in Outcomes(r)
  {
    PastOutcomesOfIds(r.history);
    forall i | 0 <= i < |PastIds(r.history)| ensures PastIds(r.history)[i] != a {
      assert Ids(r)[i + 1] == PastIds(r.history)[i];
    }
    assert Ids(r)[0] == r.identity.attemptId;
  }

  lemma {:induction false} SettledHolds(run: seq<World>, events: seq<Event>, m: nat, n: nat, a: string, o: Outcome, purged: bool)
    requires IsRun(run, events) && m < n < |run| && Returns(run[m], events[m], a, o, purged)
    ensures HoldsAs(run[n], a, o, HeldAt(Held(!purged, !purged, !purged), events, m + 1, n))
    decreases n
  {
    hide Initial, Enabled, Step, Inv, HoldsAs, Returns;
    if m + 1 == n {
      ReachableInv(run, events, m);
      ReturnHolds(run[m], events[m], a, o, purged);
    } else {
      SettledHolds(run, events, m, n - 1, a, o, purged);
      ReachableInv(run, events, n - 1);
      StepHolds(run[n - 1], events[n - 1], a, o, HeldAt(Held(!purged, !purged, !purged), events, m + 1, n - 1));
    }
  }

  lemma ReturnHolds(w: World, e: Event, a: string, o: Outcome, purged: bool)
    requires Inv(w) && Enabled(w, e) && Returns(w, e, a, o, purged)
    ensures HoldsAs(Step(w, e), a, o, Held(!purged, !purged, !purged))
  {
    hide LockInv, GateInv, WellFormed, Distinct, Read, PastOutcomes;
    var r := w.writing.value.record;
    assert Ids(r)[0] == a;
    if !purged {
      CurrentTold(r);
    }
  }

  lemma CurrentTold(r: Record)
    requires r.state == Resolved && r.outcome.Some? && Distinct(Ids(r))
    ensures var a := r.identity.attemptId; a in Outcomes(r) && Outcomes(r)[a] == r.outcome.value
  {
    CurrentNotPast(r);
    hide PastOutcomes;
  }

  lemma StepHolds(w: World, e: Event, a: string, o: Outcome, h: Held)
    requires Inv(w) && Enabled(w, e) && HoldsAs(w, a, o, h)
    ensures HoldsAs(Step(w, e), a, o, After(h, e))
  {
    hide LockInv, GateInv, WellFormed, Distinct, Ids, Read, Outcomes, PlanOf;
    if IsStoreCall(e) {
      PlannedHolds(w, e, a, o, h);
    } else if e.WriteRenames? {
      SavedReads(w.writing.value.record, w);
    } else if WritesDisk(e) {
      DiskHolds(w, e, a, o, h);
    } else {
      DiskFrame(w, e);
      WritingFrame(w, e);
      hide Step, Enabled;
    }
  }

  lemma DiskHolds(w: World, e: Event, a: string, o: Outcome, h: Held)
    requires Enabled(w, e) && HoldsAs(w, a, o, h) && WritesDisk(e) && !e.WriteRenames?
    ensures HoldsAs(Step(w, e), a, o, After(h, e))
  {
    PurgedTells(w);
    hide Read, Outcomes, Ids, PlanOf;
  }

  lemma PlannedHolds(w: World, e: Event, a: string, o: Outcome, h: Held)
    requires Inv(w) && IsStoreCall(e) && Enabled(w, e) && HoldsAs(w, a, o, h)
    ensures HoldsAs(Step(w, e), a, o, After(h, e))
  {
    hide LockInv, GateInv, WellFormed, Distinct, Ids, Read, Outcomes, PlanOf;
    PlannedIds(w, e);
    AttemptsPlanned(w, e);
    BegunIsUnused(w, e);
    DiskFrame(w, e);
    var read := Seen(w.visible, w);
    if e.ResolveReads? {
      assert read.record.identity.attemptId in Ids(read.record) by { CurrentListed(read.record); }
    }
  }

  lemma CurrentListed(r: Record)
    ensures r.identity.attemptId in Ids(r)
  {
    assert Ids(r)[0] == r.identity.attemptId;
  }

  /** Without a purge it stays, through every later step and crash. */
  lemma SettledUnlessPurged(run: seq<World>, events: seq<Event>, m: nat, n: nat, a: string, o: Outcome)
    requires IsRun(run, events) && m < n < |run| && Returns(run[m], events[m], a, o, false)
    requires forall i :: m < i < n ==> !events[i].Purges?
    ensures Accounts(run[n].visible, run[n], a, o) && Accounts(run[n].durable, run[n], a, o)
  {
    SettledExactly(run, events, m, n, a, o, false);
    UnpurgedStays(events, m + 1, n);
    hide IsRun, Accounts, Unlisted;
  }

  lemma {:induction false} UnpurgedStays(events: seq<Event>, m: nat, n: nat)
    requires m <= n <= |events| && forall i :: m <= i < n ==> !events[i].Purges?
    ensures HeldAt(Held(true, true, true), events, m, n) == Held(true, true, true)
    decreases n
  {
    if m < n {
      UnpurgedStays(events, m, n - 1);
    }
  }

  // ----- The purge

  /** A world at rest: booted, and nobody holds the session's lock. */
  ghost predicate AtRest(w: World) {
    !w.booting && w.stage == Idle
  }

  /** A hard delete that arrives at rest, up to its second read. */
  lemma DeleteReaches(run: seq<World>, events: seq<Event>) returns (all: seq<World>, longer: seq<Event>)
    requires IsRun(run, events) && AtRest(run[|events|]) && PassesGate(Seen(run[|events|].visible, run[|events|]))
    ensures IsRun(all, longer) && |all| == |run| + 2 == |longer| + 1 == |events| + 3 && all[..|run|] == run && longer[..|events|] == events
    ensures var w, v := run[|events|], all[|longer|];
      && v.stage == Rechecking(L.DeleteHard) && v.visible == w.visible && v.sid == w.sid
      && v.writing == w.writing && (w.writing.Some? ==> MayOutlive(w.writing.value))
  {
    var w := run[|events|];
    hide Initial, IsRun, Read;
    ReachableInv(run, events, |events|);
    hide RecordInv, GateInv;
    WriterOutlives(w);
    all, longer := Goes(run, events, Arrives(L.DeleteHard, L.Wait));
    all, longer := Goes(all, longer, GuardReads(false));
  }

  lemma WriterOutlives(w: World)
    requires RecordInv(w) && AtRest(w)
    ensures w.writing.Some? ==> MayOutlive(w.writing.value)
  {
    WriterRuns(w);
  }

  /**
   The failing side, after every run that has come to rest on a resolved record that retains nothing: a hard delete that
   purges, and whose last steps then fail, leaves no record on either disk.
   */
  lemma HardDeletePurges(run: seq<World>, events: seq<Event>) returns (all: seq<World>, longer: seq<Event>)
    requires IsRun(run, events) && AtRest(run[|events|])
    requires var read := Seen(run[|events|].visible, run[|events|]); PassesGate(read) && PassesRetainedCheck(read)
    ensures IsRun(all, longer) && |longer| == |events| + 6 && all[..|run|] == run && longer[..|events|] == events
    ensures var last := all[|longer|]; last.stage == Leaving(L.DeleteHard) && last.visible == Absent && last.durable == Absent
  {
    assert |run| == |events| + 1;
    hide Initial, IsRun, Read, Enabled, Step, PassesRetainedCheck;
    all, longer := DeleteReaches(run, events);
    DeleteSteps(all[|longer|], false);
    all, longer := Goes(all, longer, GuardRereads(false));
    all, longer := Goes(all, longer, Purges);
    all, longer := Goes(all, longer, DiskFlushes);
    all, longer := Goes(all, longer, BodyEnds);
  }

  lemma DeleteSteps(w: World, ioError: bool)
    requires w.stage == Rechecking(L.DeleteHard) && (ioError || PassesRetainedCheck(Seen(w.visible, w)))
    requires w.writing.Some? ==> MayOutlive(w.writing.value)
    ensures Enabled(w, GuardRereads(ioError))
    ensures var v := Step(w, GuardRereads(ioError));
      && v.stage == Running(L.DeleteHard) && v.visible == w.visible && Enabled(v, Purges)
      && var u := Step(v, Purges);
      && u.visible == Absent && Enabled(u, DiskFlushes)
      && var t := Step(u, DiskFlushes);
      && Enabled(t, BodyEnds)
      && var last := Step(t, BodyEnds);
      last.stage == Leaving(L.DeleteHard) && last.visible == Absent && last.durable == Absent
  {
    IoErrorRefuses(w.visible, w.sid);
    hide Read;
  }

  lemma Goes(run: seq<World>, events: seq<Event>, e: Event) returns (all: seq<World>, longer: seq<Event>)
    requires IsRun(run, events) && Enabled(run[|events|], e)
    ensures IsRun(all, longer) && all == run + [Step(run[|events|], e)] && longer == events + [e]
    ensures all[|longer|] == Step(run[|events|], e)
  {
    hide Enabled, Step, Initial;
    all, longer := run + [Step(run[|events|], e)], events + [e];
  }

  /** But a crash before anything is flushed undoes a purge. */
  lemma CrashUndoesPurge(w: World)
    requires Enabled(w, Purges) && w.visible == w.durable
    ensures Enabled(Step(w, Purges), Crashes) && Step(Step(w, Purges), Crashes).visible == w.visible
  {
  }

  lemma Boots(w: World) returns (run: seq<World>, events: seq<Event>)
    requires Initial(w)
    ensures IsRun(run, events) && |run| == 2 && |events| == 1 && run[0] == w
    ensures AtRest(run[1]) && run[1].visible == w.visible && run[1].sid == w.sid
  {
    hide FileInv;
    run, events := [w, w.(booting := false)], [BootDone];
  }

  /** The failing side of the second read: from a resolved record that retains a container, a hard delete that purges it. */
  lemma HardDeleteOrphans(w: World) returns (run: seq<World>, events: seq<Event>)
    requires Initial(w) && PassesGate(Seen(w.visible, w)) && !PassesRetainedCheck(Seen(w.visible, w))
    ensures IsRun(run, events) && run[0] == w && |events| == 5
    ensures run[4].stage == Running(L.DeleteHard) && run[4].visible == w.visible && run[5].visible == Absent
  {
    hide Initial, IsRun, Read, Enabled, Step;
    run, events := Boots(w);
    run, events := DeleteReaches(run, events);
    DeleteSteps(run[|events|], true);
    run, events := Goes(run, events, GuardRereads(true));
    run, events := Goes(run, events, Purges);
  }

  // ----- Retained containers

  ghost predicate Retains(read: ReadResult) {
    read.Readable? && read.record.state == Resolved && read.record.retained.Some?
  }

  ghost predicate RetainsAll(w: World) {
    && Retains(Seen(w.visible, w)) && Retains(Seen(w.durable, w))
    && (w.writing.Some? ==> w.writing.value.how.Resolves? && !w.writing.value.purged && w.writing.value.record.retained.Some?)
  }

  /** What ends a retention: an approval, another attempt, or the purge of a hard delete that could not read the record. */
  predicate EndsRetention(e: Event) {
    e.ApproveReads? || e.BeginReads? || e.Purges?
  }

  lemma RetentionStep(w: World, e: Event)
    requires Inv(w) && Enabled(w, e) && RetainsAll(w) && !EndsRetention(e)
    ensures RetainsAll(Step(w, e))
  {
    hide LockInv, GateInv, WellFormed, Distinct, Ids, Read, Outcomes, PlanOf;
    if IsStoreCall(e) {
      RetentionCall(w, e);
    } else if e.WriteRenames? {
      SavedReads(w.writing.value.record, w);
    } else if WritesDisk(e) {
      RetentionDisk(w, e);
    } else {
      DiskFrame(w, e);
      WritingFrame(w, e);
      WritingUnpurged(w, e);
      hide Step, Enabled;
    }
  }

  lemma WritingUnpurged(w: World, e: Event)
    requires Enabled(w, e) && !IsStoreCall(e) && !e.Purges?
    ensures Step(w, e).writing.Some? && w.writing.Some? && !w.writing.value.purged ==> !Step(w, e).writing.value.purged
  {
    hide PlanOf, CallAllowed, PassesGate, PassesRetainedCheck, Read, Granted, L.Acquire, L.TimeOut, L.Release, L.Enabled;
  }

  lemma RetentionDisk(w: World, e: Event)
    requires Enabled(w, e) && RetainsAll(w) && WritesDisk(e) && !e.WriteRenames? && !e.Purges?
    ensures RetainsAll(Step(w, e))
  {
    hide Read, PlanOf;
  }

  lemma RetentionCall(w: World, e: Event)
    requires Inv(w) && Enabled(w, e) && IsStoreCall(e) && RetainsAll(w) && !EndsRetention(e)
    ensures RetainsAll(Step(w, e))
  {
    hide LockInv, GateInv, RecordInv, Read, PlanOf;
    DiskFrame(w, e);
    OnlyResolves(w, e);
    ResolvePlanned(w, e);
  }

  lemma OnlyResolves(w: World, e: Event)
    requires Enabled(w, e) && IsStoreCall(e) && Retains(Seen(w.visible, w)) && !EndsRetention(e)
    ensures e.ResolveReads?
  {
    hide Read;
  }

  /** A resolve that names a container is to write a record that retains it; one that names none, what was retained. */
  lemma ResolvePlanned(w: World, e: Event)
    requires Enabled(w, e) && e.ResolveReads?
    ensures var wr := Step(w, e).writing;
      && wr.Some? && wr.value.how == Resolves(e.outcome) && !wr.value.purged && !wr.value.renamed
      && Seen(w.visible, w).Readable?
      && wr.value.record.retained == if e.retained.Some? then e.retained else Seen(w.visible, w).record.retained
  {
    hide Read;
  }

  lemma {:induction false} RetentionLasts(run: seq<World>, events: seq<Event>, m: nat, n: nat)
    requires IsRun(run, events) && m <= n < |run| && RetainsAll(run[m])
    requires forall i :: m <= i < n ==> !EndsRetention(events[i])
    ensures RetainsAll(run[n])
    decreases n
  {
    hide Initial, Enabled, Step, Inv, RetainsAll;
    if m < n {
      RetentionLasts(run, events, m, n - 1);
      ReachableInv(run, events, n - 1);
      RetentionStep(run[n - 1], events[n - 1]);
    }
  }

  /** The write that a call planned at step `l` is still the one under way at `m`. */
  predicate Undisturbed(events: seq<Event>, l: nat, m: nat)
    requires m <= |events|
  {
    forall i :: l < i < m ==> !IsStoreCall(events[i]) && !EndsRetention(events[i])
  }

  lemma {:induction false} WritesPlanned(run: seq<World>, events: seq<Event>, l: nat, m: nat)
    requires IsRun(run, events) && l < m < |run| && IsStoreCall(events[l]) && Undisturbed(events, l, m)
    requires run[m].writing.Some?
    ensures run[l + 1].writing.Some?
    ensures var planned, wr := run[l + 1].writing.value, run[m].writing.value;
      wr.record == planned.record && wr.how == planned.how && (!planned.purged ==> !wr.purged)
    decreases m
  {
    hide Initial, Enabled, Step;
    if l + 1 < m {
      StillWriting(run[m - 1], events[m - 1]);
      WritesPlanned(run, events, l, m - 1);
    }
  }

  lemma StillWriting(w: World, e: Event)
    requires Enabled(w, e) && !IsStoreCall(e) && !e.Purges? && Step(w, e).writing.Some?
    ensures w.writing.Some?
    ensures var v := Step(w, e);
      v.writing.value.record == w.writing.value.record && v.writing.value.how == w.writing.value.how
    ensures !w.writing.value.purged ==> !Step(w, e).writing.value.purged
  {
    if !e.WriteRenames? {
      WritingFrame(w, e);
      WritingUnpurged(w, e);
      hide Step, Enabled;
    }
  }

  /**
   A resolve that names a container reads at step `l` and returns at `m`. From then on, until an approval, another attempt
   or a blind purge, the record retains a container on both disks, through every crash, and no hard delete that can read
   it starts or runs.
   */
  lemma RetainedUntilApproved(run: seq<World>, events: seq<Event>, l: nat, m: nat, n: nat)
    requires IsRun(run, events) && l < m < n < |run|
    requires events[l].ResolveReads? && events[l].retained.Some? && Undisturbed(events, l, m)
    requires events[m].WriteSyncs?
    requires forall i :: m < i < n ==> !EndsRetention(events[i])
    ensures Retains(Seen(run[n].visible, run[n])) && Retains(Seen(run[n].durable, run[n]))
    ensures run[n].stage == Running(L.DeleteHard) ==> run[n].blind
    ensures n < |events| && events[n] == GuardRereads(false) ==> run[n + 1].stage.Leaving?
  {
    assert run[m].writing.Some?;
    ResolvePlanned(run[l], events[l]);
    hide Initial, Enabled, Step, Inv, Seen;
    WritesPlanned(run, events, l, m);
    ReachableInv(run, events, m);
    RetentionStarts(run[m]);
    RetentionLasts(run, events, m + 1, n);
    ReachableInv(run, events, n);
    RetentionStops(run[n]);
  }

  lemma RetentionStarts(w: World)
    requires Inv(w) && Enabled(w, WriteSyncs) && w.writing.value.how.Resolves? && !w.writing.value.purged
    requires w.writing.value.record.retained.Some?
    ensures RetainsAll(Step(w, WriteSyncs))
  {
    hide LockInv, GateInv, WellFormed, Distinct, Ids, Read, Outcomes;
  }

  lemma RetentionStops(w: World)
    requires Inv(w) && RetainsAll(w)
    ensures w.stage == Running(L.DeleteHard) ==> w.blind
    ensures Enabled(w, GuardRereads(false)) ==> Step(w, GuardRereads(false)).stage.Leaving?
  {
    hide LockInv, RecordInv, Read;
  }

  /** No step makes a session's own record unreadable. */
  ghost predicate Legible(w: World) {
    !Seen(w.visible, w).Unreadable? && !Seen(w.durable, w).Unreadable?
  }

  lemma {:induction false} LegibleForever(run: seq<World>, events: seq<Event>, n: nat)
    requires IsRun(run, events) && n < |run| && Legible(run[0])
    ensures Legible(run[n])
    decreases n
  {
    hide Initial, Enabled, Legible;
    if n > 0 {
      LegibleForever(run, events, n - 1);
      ReachableInv(run, events, n - 1);
      LegibleStep(run[n - 1], events[n - 1]);
    }
  }

  lemma LegibleStep(w: World, e: Event)
    requires Inv(w) && Enabled(w, e) && Legible(w)
    ensures Legible(Step(w, e))
  {
    hide LockInv, GateInv, WellFormed, Distinct, Ids, Read, Outcomes, PlanOf;
    if WritesDisk(e) {
      if e.WriteRenames? {
        SavedReads(w.writing.value.record, w);
      }
      PurgedTells(w);
    } else {
      DiskFrame(w, e);
      hide Step, Enabled;
    }
  }

  /** Attempts in a readable record, current and past, are listed once each. */
  lemma ListedOnce(run: seq<World>, events: seq<Event>, n: nat)
    requires IsRun(run, events) && n < |run| && Seen(run[n].visible, run[n]).Readable?
    ensures Distinct(Ids(Seen(run[n].visible, run[n]).record))
  {
    ReachableInv(run, events, n);
    hide LockInv, GateInv, Read;
  }

  // ----- The order of the attempts

  /** Step `q` began the attempt. */
  ghost predicate BegunAt(events: seq<Event>, q: nat, a: string) {
    q < |events| && events[q].BeginReads? && events[q].id.attemptId == a
  }

  ghost predicate BegunBetween(events: seq<Event>, q: nat, n: nat, a: string) {
    exists p: nat :: q < p < n && BegunAt(events, p, a)
  }

  /** Whatever is listed before an attempt that was begun in the run was begun after it. */
  ghost predicate NewestIsFirst(ids: seq<string>, events: seq<Event>, n: nat) {
    forall i: nat, j: nat, q: nat :: i < j < |ids| && q < n && BegunAt(events, q, ids[j]) ==> BegunBetween(events, q, n, ids[i])
  }

  /** The attempts of a record that is visible, durable or being written. */
  ghost predicate Shows(w: World, ids: seq<string>) {
    || (Seen(w.visible, w).Readable? && Ids(Seen(w.visible, w).record) == ids)
    || (Seen(w.durable, w).Readable? && Ids(Seen(w.durable, w).record) == ids)
    || (w.writing.Some? && Ids(w.writing.value.record) == ids)
  }

  lemma ShownAreUsed(w: World, ids: seq<string>)
    requires RecordInv(w) && Shows(w, ids)
    ensures Distinct(ids) && forall i :: 0 <= i < |ids| ==> ids[i] in w.used
  {
    hide WellFormed, Read, Outcomes, Ids;
  }

  /** The attempts a planned record lists: those it read, after the one it begins. */
  lemma PlannedIds(w: World, e: Event)
    requires RecordInv(w) && IsStoreCall(e) && Enabled(w, e)
    ensures var read, r := Seen(w.visible, w), PlanOf(w, e).value;
      && Ids(r) == (if e.BeginReads? then [e.id.attemptId] else []) + (if read.Readable? then Ids(read.record) else [])
      && Outcomes(r) == (if e.ResolveReads? then OutcomesIn(read)[e.attempt := e.outcome] else OutcomesIn(read))
      && (!e.BeginReads? ==> read.Readable?)
  {
    hide WellFormed, Distinct, Read, Outcomes, Ids;
    var read := Seen(w.visible, w);
    match e
    case BeginReads(id, x, now) => BeginSucceeds(read, w.sid, id, x, now);
    case MarkReads(a, reason, now) => MarkSucceeds(read, w.sid, a, w.active, reason, now);
    case ResolveReads(a, o, reason, kept, now) => ResolveSucceeds(read, w.sid, a, w.active, o, reason, kept, now);
    case AdoptReads(a, now, at) => AdoptSucceeds(read, w.sid, a, now, at);
    case ApproveReads(now) => ApproveSucceeds(read, w.sid, now);
    case RecoverReads(now) => RecoverSucceeds(read, w.sid, now);
  }

  lemma StepShows(w: World, e: Event, ids: seq<string>)
    requires RecordInv(w) && Enabled(w, e) && Shows(Step(w, e), ids)
    ensures Shows(w, ids) || (e.BeginReads? && |ids| > 0 && ids[0] == e.id.attemptId && (ids[1..] == [] || Shows(w, ids[1..])))
  {
    hide WellFormed, Distinct, Read, Outcomes, Ids, PlanOf;
    if IsStoreCall(e) {
      PlannedIds(w, e);
    } else if e.WriteRenames? {
      SavedReads(w.writing.value.record, w);
    } else {
      NothingNewShown(w, e, ids);
    }
  }

  lemma NothingNewShown(w: World, e: Event, ids: seq<string>)
    requires Enabled(w, e) && !IsStoreCall(e) && !e.WriteRenames? && Shows(Step(w, e), ids)
    ensures Shows(w, ids)
  {
    hide WellFormed, Distinct, Read, Outcomes, Ids;
    WritingFrame(w, e);
    PurgedTells(w);
    if WritesDisk(e) {
      DiskCopied(w, e);
    } else {
      DiskFrame(w, e);
    }
    hide Step, Enabled;
  }

  lemma WritingFrame(w: World, e: Event)
    requires Enabled(w, e) && !IsStoreCall(e) && !e.WriteRenames?
    ensures Step(w, e).writing.Some? ==>
      && w.writing.Some? && Step(w, e).writing.value.record == w.writing.value.record
      && Step(w, e).writing.value.how == w.writing.value.how
  {
    hide PlanOf, CallAllowed, PassesGate, PassesRetainedCheck, Read, Granted, L.Acquire, L.TimeOut, L.Release, L.Enabled;
  }

  lemma DiskCopied(w: World, e: Event)
    requires Enabled(w, e) && WritesDisk(e) && !e.WriteRenames?
    ensures Step(w, e).sid == w.sid
    ensures Step(w, e).visible == w.visible || Step(w, e).visible == w.durable || Step(w, e).visible == Absent
    ensures Step(w, e).durable == w.visible || Step(w, e).durable == w.durable
  {
    hide PlanOf, CallAllowed, Read;
  }

  /** In every run with crashes, every record on disk lists each attempt once, and attempts begun in the run newest first. */
  lemma {:induction false} NewestFirst(run: seq<World>, events: seq<Event>, n: nat, ids: seq<string>)
    requires IsRun(run, events) && n < |run| && Shows(run[n], ids)
    ensures Distinct(ids) && NewestIsFirst(ids, events, n)
    decreases n
  {
    hide Initial, Enabled, Step, Shows, Distinct;
    ReachableInv(run, events, n);
    ShownAreUsed(run[n], ids);
    if n > 0 {
      var w, e := run[n - 1], events[n - 1];
      ReachableInv(run, events, n - 1);
      StepShows(w, e, ids);
      BegunIsUnused(w, e);
      if Shows(w, ids) {
        ShownAreUsed(w, ids);
        NewestFirst(run, events, n - 1, ids);
        OrderLasts(ids, events, n - 1, w.used);
      } else {
        var older := ids[1..];
        if older != [] {
          ShownAreUsed(w, older);
          NewestFirst(run, events, n - 1, older);
        }
        OrderExtends(ids, events, n - 1, w.used);
      }
    }
  }

  lemma BegunIsUnused(w: World, e: Event)
    requires Enabled(w, e)
    ensures e.BeginReads? ==> e.id.attemptId !in w.used
  {
    hide PlanOf, L.Enabled;
  }

  lemma OrderLasts(ids: seq<string>, events: seq<Event>, n: nat, used: set<string>)
    requires n < |events| && NewestIsFirst(ids, events, n) && forall i :: 0 <= i < |ids| ==> ids[i] in used
    requires events[n].BeginReads? ==> events[n].id.attemptId !in used
    ensures NewestIsFirst(ids, events, n + 1)
  {
    forall i: nat, j: nat, q: nat | i < j < |ids| && q < n + 1 && BegunAt(events, q, ids[j])
      ensures BegunBetween(events, q, n + 1, ids[i])
    {
      assert q < n && BegunBetween(events, q, n, ids[i]);
    }
  }

  lemma OrderExtends(ids: seq<string>, events: seq<Event>, n: nat, used: set<string>)
    requires n < |events| && |ids| > 0 && BegunAt(events, n, ids[0]) && ids[0] !in used
    requires ids[1..] != [] ==> NewestIsFirst(ids[1..], events, n)
    requires forall i :: 0 <= i < |ids[1..]| ==> ids[1..][i] in used
    ensures NewestIsFirst(ids, events, n + 1)
  {
    forall i: nat, j: nat, q: nat | i < j < |ids| && q < n + 1 && BegunAt(events, q, ids[j])
      ensures BegunBetween(events, q, n + 1, ids[i])
    {
      assert ids[j] == ids[1..][j - 1];
      assert q < n;
      if i == 0 {
        assert BegunAt(events, n, ids[i]);
      } else {
        assert ids[i] == ids[1..][i - 1];
        assert BegunBetween(events, q, n, ids[1..][i - 1]);
      }
    }
  }

  // ----- Overlapping transitions

  /** Every attempt and every outcome the first record tells, the second tells too. */
  ghost predicate Tells(first: Record, second: Record) {
    && (forall a :: a in Ids(first) ==> a in Ids(second))
    && Covers(Outcomes(first), Outcomes(second))
  }

  predicate AlreadyResolved(w: World) {
    Seen(w.visible, w).Readable? && Seen(w.visible, w).record.state == Resolved
  }

  lemma PlanExists(w: World, e: Event)
    requires IsStoreCall(e) && Enabled(w, e)
    ensures PlanOf(w, e).Some?
  {
    hide PlanOf;
  }

  /**
   Which overlaps do harm. Two transitions read the same record, and the second writes over the first: an attempt or an
   outcome is lost exactly when the first began an attempt the second does not begin, or gave an unresolved attempt an
   outcome the second does not.
   */
  lemma OverlapLosesExactly(w: World, e: Event, f: Event)
    requires RecordInv(w) && IsStoreCall(e) && IsStoreCall(f) && Enabled(w, e) && Enabled(w, f)
    ensures !Tells(PlanOf(w, e).value, PlanOf(w, f).value) <==>
      || (e.BeginReads? && !(f.BeginReads? && f.id.attemptId == e.id.attemptId))
      || (e.ResolveReads? && !AlreadyResolved(w) && !(f.ResolveReads? && f.outcome == e.outcome))
  {
    PlanExists(w, e);
    PlanExists(w, f);
    hide RecordInv, Enabled, PlanOf, Ids, Outcomes, Read, AlreadyResolved;
    OverlapLosesAttempts(w, e, f);
    OverlapLosesOutcomes(w, e, f);
  }

  lemma OverlapLosesAttempts(w: World, e: Event, f: Event)
    requires RecordInv(w) && IsStoreCall(e) && IsStoreCall(f) && Enabled(w, e) && Enabled(w, f)
    requires PlanOf(w, e).Some? && PlanOf(w, f).Some?
    ensures (forall a :: a in Ids(PlanOf(w, e).value) ==> a in Ids(PlanOf(w, f).value))
      <==> !(e.BeginReads? && !(f.BeginReads? && f.id.attemptId == e.id.attemptId))
  {
    hide RecordInv, Enabled, PlanOf, Ids, Outcomes, Read, OutcomesIn, AlreadyResolved;
    PlannedIds(w, e);
    PlannedIds(w, f);
    AttemptsPlanned(w, e);
    var r, t, read := PlanOf(w, e).value, PlanOf(w, f).value, Seen(w.visible, w);
    assert forall a :: a in Ids(r) <==> (e.BeginReads? && a == e.id.attemptId) || (read.Readable? && a in Ids(read.record));
    assert forall a :: a in Ids(t) <==> (f.BeginReads? && a == f.id.attemptId) || (read.Readable? && a in Ids(read.record));
    if e.BeginReads? {
      assert e.id.attemptId in Ids(r);
    }
  }

  lemma OverlapLosesOutcomes(w: World, e: Event, f: Event)
    requires RecordInv(w) && IsStoreCall(e) && IsStoreCall(f) && Enabled(w, e) && Enabled(w, f)
    requires PlanOf(w, e).Some? && PlanOf(w, f).Some?
    ensures Covers(Outcomes(PlanOf(w, e).value), Outcomes(PlanOf(w, f).value))
      <==> !(e.ResolveReads? && !AlreadyResolved(w) && !(f.ResolveReads? && f.outcome == e.outcome))
  {
    hide RecordInv, Enabled, PlanOf, Ids, Outcomes, Read, OutcomesIn, AlreadyResolved;
    PlannedIds(w, e);
    PlannedIds(w, f);
    AttemptsPlanned(w, e);
    AttemptsPlanned(w, f);
    if e.ResolveReads? {
      assert e.attempt in Outcomes(PlanOf(w, e).value);
    }
  }

  /** A begun attempt is not the record's yet. A resolve is of the current attempt, which has no outcome, or that one. */
  lemma AttemptsPlanned(w: World, e: Event)
    requires RecordInv(w) && IsStoreCall(e) && Enabled(w, e)
    ensures var read := Seen(w.visible, w);
      && (e.BeginReads? ==> (read.Readable? ==> e.id.attemptId !in Ids(read.record)))
      && (e.ResolveReads? ==> read.Readable? && read.record.identity.attemptId == e.attempt)
      && (e.ResolveReads? && AlreadyResolved(w) ==> e.attempt in OutcomesIn(read) && OutcomesIn(read)[e.attempt] == e.outcome)
      && (e.ResolveReads? && !AlreadyResolved(w) ==> e.attempt !in OutcomesIn(read))
  {
    hide WellFormed, Read;
    var read := Seen(w.visible, w);
    if e.ResolveReads? {
      ResolvesCurrent(w, e);
      CurrentNotPast(read.record);
    }
  }

  lemma ResolvesCurrent(w: World, e: Event)
    requires Enabled(w, e) && e.ResolveReads?
    ensures var read := Seen(w.visible, w);
      && read.Readable? && read.record.identity.attemptId == e.attempt
      && (read.record.state == Resolved ==> read.record.outcome == Some(e.outcome))
  {
    hide Read;
  }

  /**
   For one: a mark that read the record while it was open, written after
   the same attempt was resolved, takes the outcome away and closes the gate again.
   */
  lemma StaleMarkUndoesResolve(r: Record, active: set<string>, o: Outcome, why: string, now: string)
    requires r.state == Open && r.identity.attemptId in active && OutcomeOk(o) && !Truthy(r.orphanedAt)
    requires r.identity.attemptId !in PastIds(r.history)
    ensures var a := r.identity.attemptId;
      && PlanResolve(Readable(r), a, active, o, why, None, now).Ok?
      && PlanMarkUncertain(Readable(r), a, active, why, now).Ok?
      && var resolved := PlanResolve(Readable(r), a, active, o, why, None, now).value;
      var marked := PlanMarkUncertain(Readable(r), a, active, why, now).value;
      && a in Outcomes(resolved) && PassesGate(Readable(resolved))
      && a !in Outcomes(marked) && !PassesGate(Readable(marked))
  {
    PastOutcomesOfIds(r.history);
  }
}
