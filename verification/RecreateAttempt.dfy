/**
 The recreation attempt store of backend/src/recreateAttempt.ts.

 Each transition is one read of the session's record, checks, and one write. The
 `Plan…` functions are the checks: from what was read they give the record to
 write, or the refusal. `RecreateAttemptStore` is the class, with the set of
 attempts its process run owns, over a disk whose writes can fail on either side
 of the rename.
 */
module RecreateAttempt {
  import opened Wrappers
  import opened AttemptRecord

  // ----- Reading

  /** What a record path holds: nothing (ENOENT), text that is not JSON, or a JSON value. */
  datatype File = Absent | Garbled | Contents(value: Json)

  datatype ReadResult = NoRecord | Readable(record: Record) | Unreadable

  /** A read that fails for any reason but ENOENT counts as unreadable. */
  function Read(f: File, sid: string, ioError: bool): ReadResult {
    if ioError then Unreadable
    else
      match f
      case Absent => NoRecord
      case Garbled => Unreadable
      case Contents(v) =>
        match ParseRecord(v, sid)
        case None => Unreadable
        case Some(r) => Readable(r)
  }

  function Save(r: Record): File {
    Contents(ToJson(r))
  }

  lemma ReadSaved(r: Record, sid: string)
    requires WellFormed(r, sid)
    ensures Read(Save(r), sid, false) == Readable(r)
  {
    RecordRoundTrip(r, sid);
  }

  /**
   A file that is there and can be opened is readable exactly when it holds a well-formed record of its session. Only a
   file that is not there counts as no record.
   */
  lemma ReadableExactly(f: File, sid: string)
    requires sid != ""
    ensures Read(f, sid, false).Readable? <==> exists r :: WellFormed(r, sid) && f == Save(r)
    ensures Read(f, sid, false).Readable? ==> WellFormed(Read(f, sid, false).record, sid)
    ensures forall ioError :: Read(f, sid, ioError).NoRecord? <==> !ioError && f == Absent
    ensures Read(f, sid, true).Unreadable?
  {
    if Read(f, sid, false).Readable? {
      RecordFaithful(f.value, sid);
      assert f == Save(Read(f, sid, false).record);
    }
    if r :| WellFormed(r, sid) && f == Save(r) {
      ReadSaved(r, sid);
    }
  }

  // ----- The gate

  datatype Refusal = UnresolvedRefusal | RetainedRefusal | TransitionRefusal | WriteFailed

  /** `assertResolved`: no record, or a resolved one. */
  predicate PassesGate(r: ReadResult) {
    r.NoRecord? || (r.Readable? && r.record.state == Resolved)
  }

  /** The second read of `assertResolvedAndNotRetained` stops only on a readable, retaining record. */
  predicate PassesRetainedCheck(r: ReadResult) {
    !(r.Readable? && r.record.retained.Some?)
  }

  // ----- Transitions

  datatype Extra = Extra(preserve: Option<Carry>, reverse: bool, retainedContainerId: Option<string>)

  /** JavaScript truthiness of an optional string. */
  predicate Truthy(s: Option<string>) {
    s.Some? && s.value != ""
  }

  /** A resolved record always has its outcome: the parser refuses one without it. */
  function PastOf(r: Record): Past {
    Past(r.identity.attemptId, if r.outcome.Some? then r.outcome.value else RolledBack, r.stateAt)
  }

  function PlanBegin(read: ReadResult, sid: string, id: Identity, extra: Extra, now: string): Result<Record, Refusal>
  {
    if !PassesGate(read) then Err(UnresolvedRefusal)
    else
      var history := if read.NoRecord? then [] else [PastOf(read.record)] + read.record.history;
      Ok(Record(sid, id, now, Open, now, None, None, None, None, extra.preserve, extra.reverse,
                if extra.reverse && Truthy(extra.retainedContainerId) then extra.retainedContainerId else None,
                None, None, history))
  }

  function Current(read: ReadResult, attemptId: string): Result<Record, Refusal> {
    if read.Readable? && read.record.identity.attemptId == attemptId then Ok(read.record) else Err(TransitionRefusal)
  }

  function PlanMarkUncertain(read: ReadResult, attemptId: string, active: set<string>, reason: string, now: string)
    : Result<Record, Refusal>
  {
    match Current(read, attemptId)
    case Err(e) => Err(e)
    case Ok(r) =>
      if r.state != Open || attemptId !in active then Err(TransitionRefusal)
      else Ok(r.(state := Uncertain, stateAt := now, reason := Some(reason), outcome := None))
  }

  function PlanResolve(read: ReadResult, attemptId: string, active: set<string>, outcome: Outcome, reason: string,
                       retained: Option<Retained>, now: string): Result<Record, Refusal>
  {
    if !OutcomeOk(outcome) then Err(TransitionRefusal)
    else
      match Current(read, attemptId)
      case Err(e) => Err(e)
      case Ok(r) =>
        if attemptId !in active then Err(TransitionRefusal)
        else if r.state == Resolved && r.outcome != Some(outcome) then Err(TransitionRefusal)
        else if Truthy(r.orphanedAt) && !Truthy(r.recoveredAt) then Err(TransitionRefusal)
        else Ok(r.(state := Resolved, stateAt := now, reason := Some(reason), outcome := Some(outcome),
                   retained := if retained.Some? then retained else r.retained))
  }

  function OrNoReason(reason: Option<string>): string {
    if reason.Some? then reason.value else "no reason"
  }

  function PlanAdopt(read: ReadResult, attemptId: string, now: string, recoveredAt: string): Result<Record, Refusal> {
    match Current(read, attemptId)
    case Err(e) => Err(e)
    case Ok(r) =>
      if r.state == Resolved || !Truthy(r.orphanedAt) then Err(TransitionRefusal)
      else Ok(r.(state := Uncertain, stateAt := now, recoveredAt := Some(recoveredAt),
                 reason := Some("adopted by an operator for recovery (" + OrNoReason(r.reason) + ")")))
  }

  function PlanApprove(read: ReadResult, now: string): Result<Record, Refusal> {
    if !read.Readable? || read.record.state != Resolved then Err(TransitionRefusal)
    else Ok(read.record.(retained := None, approvedAt := Some(now)))
  }

  /** What boot recovery writes for one session, if anything. */
  function PlanRecover(read: ReadResult, now: string): Option<Record> {
    if !read.Readable? || read.record.state == Resolved || Truthy(read.record.orphanedAt) then None
    else
      var r := read.record;
      Some(r.(state := Uncertain, stateAt := now, orphanedAt := Some(now),
              reason := Some(if r.state == Open then "backend restarted during the attempt"
                             else "backend restarted while uncertain (" + OrNoReason(r.reason) + ")")))
  }

  // ----- What a record accounts for

  function PastOutcomes(h: seq<Past>): map<string, Outcome> {
    if h == [] then map[] else map[h[0].attemptId := h[0].outcome] + PastOutcomes(h[1..])
  }

  /** `resolvedAttempts`: every attempt the record says was resolved, with its outcome. */
  function Outcomes(r: Record): map<string, Outcome> {
    (if r.state == Resolved && r.outcome.Some? then map[r.identity.attemptId := r.outcome.value] else map[])
    + PastOutcomes(r.history)
  }

  function OutcomesIn(read: ReadResult): map<string, Outcome> {
    if read.Readable? then Outcomes(read.record) else map[]
  }

  function PastIds(h: seq<Past>): seq<string> {
    if h == [] then [] else [h[0].attemptId] + PastIds(h[1..])
  }

  /** Every attempt the record names, the current one first. */
  function Ids(r: Record): seq<string> {
    [r.identity.attemptId] + PastIds(r.history)
  }

  ghost predicate Distinct(ids: seq<string>) {
    forall i, j :: 0 <= i < j < |ids| ==> ids[i] != ids[j]
  }

  lemma {:induction false} PastOutcomesOfIds(h: seq<Past>)
    ensures forall a :: a in PastOutcomes(h) <==> a in PastIds(h)
  {
    if h != [] {
      PastOutcomesOfIds(h[1..]);
    }
  }

  /** The outcomes of a record: its own once it is resolved, and those its history names. */
  lemma OutcomesAre(r: Record, a: string, o: Outcome)
    requires Distinct(Ids(r))
    ensures a in Outcomes(r) && Outcomes(r)[a] == o <==>
      || (a == r.identity.attemptId && r.state == Resolved && r.outcome == Some(o))
      || (exists k :: 0 <= k < |r.history| && r.history[k].attemptId == a && r.history[k].outcome == o)
  {
    CurrentNotPast(r);
    PastIdsAre(r.history);
    assert forall i :: 0 <= i < |r.history| ==> Ids(r)[i + 1] == r.history[i].attemptId;
    PastOutcomesAre(r.history, a, o);
  }

  lemma {:induction false} PastIdsAre(h: seq<Past>)
    ensures |PastIds(h)| == |h| && forall k :: 0 <= k < |h| ==> PastIds(h)[k] == h[k].attemptId
  {
    if h != [] {
      PastIdsAre(h[1..]);
    }
  }

  lemma {:induction false} PastOutcomesAre(h: seq<Past>, a: string, o: Outcome)
    requires forall i, j :: 0 <= i < j < |h| ==> h[i].attemptId != h[j].attemptId
    ensures a in PastOutcomes(h) && PastOutcomes(h)[a] == o <==>
      exists k :: 0 <= k < |h| && h[k].attemptId == a && h[k].outcome == o
  {
    PastOutcomesOfIds(h);
    PastIdsAre(h);
    if h != [] {
      PastOutcomesAre(h[1..], a, o);
      PastOutcomesOfIds(h[1..]);
      PastIdsAre(h[1..]);
      assert forall k :: 0 < k < |h| ==> h[k] == h[1..][k - 1];
      if k :| 0 <= k < |h| && h[k].attemptId == a && h[k].outcome == o {
        assert k == 0 || h[1..][k - 1].attemptId == a;
      }
    }
  }

  // ----- What every transition writes is well formed, and loses nothing

  ghost predicate ExtraOk(x: Extra) {
    x.preserve.Some? ==> CarryOk(x.preserve.value)
  }

  /** A record a transition may leave behind: writable, reading back as itself, and keeping every outcome. */
  ghost predicate Succeeds(before: ReadResult, after: Record, sid: string) {
    && WellFormed(after, sid)
    && (forall a :: a in OutcomesIn(before) ==> a in Outcomes(after) && Outcomes(after)[a] == OutcomesIn(before)[a])
    && Distinct(Ids(after))
  }

  /** What no transition of an attempt changes. */
  ghost predicate SameAttempt(before: Record, after: Record) {
    && after.sessionId == before.sessionId && after.identity == before.identity && after.startedAt == before.startedAt
    && after.preserve == before.preserve && after.reverse == before.reverse
    && after.retainedContainerId == before.retainedContainerId && after.history == before.history
  }

  /** Its marks are those of before. */
  ghost predicate SameMarks(before: Record, after: Record) {
    after.orphanedAt == before.orphanedAt && after.recoveredAt == before.recoveredAt && after.approvedAt == before.approvedAt
  }

  lemma BeginSucceeds(read: ReadResult, sid: string, id: Identity, extra: Extra, now: string)
    requires sid != "" && now != "" && IdentityOk(id) && ExtraOk(extra)
    requires read.Readable? ==>
      WellFormed(read.record, sid) && Distinct(Ids(read.record)) && id.attemptId !in Ids(read.record)
    requires PlanBegin(read, sid, id, extra, now).Ok?
    ensures var r := PlanBegin(read, sid, id, extra, now).value;
      && Succeeds(read, r, sid) && r.identity == id && r.state == Open
      && Outcomes(r) == OutcomesIn(read)
      && Ids(r) == [id.attemptId] + (if read.Readable? then Ids(read.record) else [])
      && r.startedAt == r.stateAt == now && r.outcome == None && r.retained == None
      && r.preserve == extra.preserve && r.reverse == extra.reverse
      && r.retainedContainerId == (if extra.reverse && Truthy(extra.retainedContainerId) then extra.retainedContainerId else None)
  {
    var r := PlanBegin(read, sid, id, extra, now).value;
    if read.Readable? {
      assert r.history[1..] == read.record.history;
      assert PastIds(r.history) == Ids(read.record);
    }
  }

  lemma MarkSucceeds(read: ReadResult, sid: string, a: string, active: set<string>, reason: string, now: string)
    requires now != "" && read.Readable? && WellFormed(read.record, sid) && Distinct(Ids(read.record))
    requires PlanMarkUncertain(read, a, active, reason, now).Ok?
    ensures var r := PlanMarkUncertain(read, a, active, reason, now).value;
      && Succeeds(read, r, sid) && r.identity == read.record.identity
      && r.state == Uncertain && read.record.state == Open && a in active
      && Outcomes(r) == OutcomesIn(read) && Ids(r) == Ids(read.record)
      && SameAttempt(read.record, r) && SameMarks(read.record, r) && r.retained == read.record.retained
      && r.stateAt == now && r.reason == Some(reason)
  {
  }

  lemma ResolveSucceeds(read: ReadResult, sid: string, a: string, active: set<string>, o: Outcome, reason: string,
                        retained: Option<Retained>, now: string)
    requires now != "" && read.Readable? && WellFormed(read.record, sid) && Distinct(Ids(read.record))
    requires retained.Some? ==> RetainedOk(retained.value)
    requires read.record.orphanedAt.Some? ==> Truthy(read.record.orphanedAt) || read.record.recoveredAt.Some?
    requires PlanResolve(read, a, active, o, reason, retained, now).Ok?
    ensures var r := PlanResolve(read, a, active, o, reason, retained, now).value;
      && Succeeds(read, r, sid) && r.identity == read.record.identity && r.identity.attemptId == a
      && r.state == Resolved && a in active
      && Outcomes(r) == OutcomesIn(read)[a := o] && Ids(r) == Ids(read.record)
      && SameAttempt(read.record, r) && SameMarks(read.record, r) && r.outcome == Some(o)
      && (retained.Some? ==> r.retained == retained) && (retained.None? ==> r.retained == read.record.retained)
      && r.stateAt == now && r.reason == Some(reason)
  {
    var r := PlanResolve(read, a, active, o, reason, retained, now).value;
    CurrentNotPast(read.record);
    hide PastOutcomes, PastIds, Distinct;
    assert Ids(r) == Ids(read.record);
  }

  /** A resolve that names a container leaves a record that stops every hard delete that can read it. */
  lemma ResolveRetains(read: ReadResult, sid: string, a: string, active: set<string>, o: Outcome, reason: string,
                       kept: Retained, now: string)
    requires now != "" && read.Readable? && WellFormed(read.record, sid) && Distinct(Ids(read.record)) && RetainedOk(kept)
    requires read.record.orphanedAt.Some? ==> Truthy(read.record.orphanedAt) || read.record.recoveredAt.Some?
    requires PlanResolve(read, a, active, o, reason, Some(kept), now).Ok?
    ensures var found := Read(Save(PlanResolve(read, a, active, o, reason, Some(kept), now).value), sid, false);
      && found.Readable? && found.record.state == Resolved && found.record.retained == Some(kept)
      && PassesGate(found) && !PassesRetainedCheck(found)
  {
    ResolveSucceeds(read, sid, a, active, o, reason, Some(kept), now);
    ReadSaved(PlanResolve(read, a, active, o, reason, Some(kept), now).value, sid);
    hide PlanResolve, Succeeds, Read, Ids, Distinct;
  }

  lemma CurrentNotPast(r: Record)
    requires Distinct(Ids(r))
    ensures r.identity.attemptId !in PastOutcomes(r.history)
  {
    PastOutcomesOfIds(r.history);
    var ids := PastIds(r.history);
    forall i | 0 <= i < |ids| ensures ids[i] != r.identity.attemptId {
      assert Ids(r)[0] != Ids(r)[i + 1];
    }
  }

  lemma AdoptSucceeds(read: ReadResult, sid: string, a: string, now: string, at: string)
    requires now != "" && at != "" && read.Readable? && WellFormed(read.record, sid) && Distinct(Ids(read.record))
    requires PlanAdopt(read, a, now, at).Ok?
    ensures var r := PlanAdopt(read, a, now, at).value;
      && Succeeds(read, r, sid) && r.identity == read.record.identity && r.identity.attemptId == a
      && r.state == Uncertain && read.record.state != Resolved && Truthy(r.orphanedAt) && Truthy(r.recoveredAt)
      && Outcomes(r) == OutcomesIn(read) && Ids(r) == Ids(read.record)
      && SameAttempt(read.record, r) && r.retained == read.record.retained && r.stateAt == now
      && r.orphanedAt == read.record.orphanedAt && r.recoveredAt == Some(at) && r.approvedAt == read.record.approvedAt
      && var why := if read.record.reason.Some? then read.record.reason.value else "no reason";
      r.reason == Some("adopted by an operator for recovery (" + why + ")")
  {
  }

  lemma ApproveSucceeds(read: ReadResult, sid: string, now: string)
    requires now != "" && read.Readable? && WellFormed(read.record, sid) && Distinct(Ids(read.record))
    requires PlanApprove(read, now).Ok?
    ensures var r := PlanApprove(read, now).value;
      && Succeeds(read, r, sid) && r.identity == read.record.identity
      && r.state == read.record.state == Resolved && r.retained == None
      && Outcomes(r) == OutcomesIn(read) && Ids(r) == Ids(read.record)
      && SameAttempt(read.record, r) && r.outcome == read.record.outcome && r.stateAt == read.record.stateAt
      && r.orphanedAt == read.record.orphanedAt && r.recoveredAt == read.record.recoveredAt && r.approvedAt == Some(now)
  {
  }

  lemma RecoverSucceeds(read: ReadResult, sid: string, now: string)
    requires now != "" && read.Readable? && WellFormed(read.record, sid) && Distinct(Ids(read.record))
    requires PlanRecover(read, now).Some?
    ensures var r := PlanRecover(read, now).value;
      && Succeeds(read, r, sid) && r.identity == read.record.identity
      && r.state == Uncertain && read.record.state != Resolved && r.orphanedAt == Some(now)
      && Outcomes(r) == OutcomesIn(read) && Ids(r) == Ids(read.record)
      && SameAttempt(read.record, r) && r.retained == read.record.retained && r.stateAt == now
      && r.recoveredAt == read.record.recoveredAt && r.approvedAt == read.record.approvedAt
      && (read.record.state == Open ==> r.reason == Some("backend restarted during the attempt"))
      && (read.record.state == Uncertain && read.record.reason.Some? ==>
        r.reason == Some("backend restarted while uncertain (" + read.record.reason.value + ")"))
  {
  }

  /** When each transition is refused: the conditions a caller could check on the record beforehand. */
  lemma Accepted(read: ReadResult, sid: string, a: string, active: set<string>, now: string, text: string)
    ensures forall id: Identity, x: Extra ::
      PlanBegin(read, sid, id, x, now).Ok? <==> read.NoRecord? || (read.Readable? && read.record.state == Resolved)
    ensures PlanMarkUncertain(read, a, active, text, now).Ok? <==>
      read.Readable? && read.record.identity.attemptId == a && read.record.state == Open && a in active
    ensures forall o: Outcome, kept: Option<Retained> :: PlanResolve(read, a, active, o, text, kept, now).Ok? <==>
      && OutcomeOk(o) && read.Readable? && read.record.identity.attemptId == a && a in active
      && (read.record.state == Resolved ==> read.record.outcome == Some(o))
      && (Truthy(read.record.orphanedAt) ==> Truthy(read.record.recoveredAt))
    ensures PlanAdopt(read, a, now, text).Ok? <==>
      read.Readable? && read.record.identity.attemptId == a && read.record.state != Resolved && Truthy(read.record.orphanedAt)
    ensures PlanApprove(read, now).Ok? <==> read.Readable? && read.record.state == Resolved
    ensures PlanRecover(read, now).Some? <==>
      read.Readable? && read.record.state != Resolved && !Truthy(read.record.orphanedAt)
  {
  }

  // ----- The store

  /** How a write ends: before its rename, after it with an fsync error, or durable. */
  datatype Fate = FailsBeforeRename | FailsAfterRename | Lands

  predicate IsHex(c: char) {
    '0' <= c <= '9' || 'a' <= c <= 'f'
  }

  /** The lower-case UUID shape a session id must have before a path is built from it. */
  predicate IsSessionId(s: string) {
    && |s| == 36
    && forall i :: 0 <= i < 36 ==> if i == 8 || i == 13 || i == 18 || i == 23 then s[i] == '-' else IsHex(s[i])
  }

  predicate AllHex(s: string) {
    forall i :: 0 <= i < |s| ==> '0' <= s[i] <= '9' || 'a' <= s[i] <= 'f'
  }

  /** Groups of 8, 4, 4, 4 and 12 lower-case hex digits, joined by hyphens, and nothing else. */
  lemma SessionIdsAre(a: string, b: string, c: string, d: string, e: string)
    requires |a| == 8 && |b| == |c| == |d| == 4 && |e| == 12
    ensures IsSessionId(a + "-" + b + "-" + c + "-" + d + "-" + e) <==>
      AllHex(a) && AllHex(b) && AllHex(c) && AllHex(d) && AllHex(e)
  {
    var s := a + "-" + b + "-" + c + "-" + d + "-" + e;
    assert s[..8] == a && s[9..13] == b && s[14..18] == c && s[19..23] == d && s[24..] == e;
    assert s[8] == s[13] == s[18] == s[23] == '-';
    if IsSessionId(s) {
      assert forall i :: 0 <= i < 8 ==> a[i] == s[i];
      assert forall i :: 0 <= i < 4 ==> b[i] == s[i + 9] && c[i] == s[i + 14] && d[i] == s[i + 19];
      assert forall i :: 0 <= i < 12 ==> e[i] == s[i + 24];
    }
    if AllHex(a) && AllHex(b) && AllHex(c) && AllHex(d) && AllHex(e) {
      forall i | 0 <= i < 36 && i != 8 && i != 13 && i != 18 && i != 23 ensures IsHex(s[i]) {
        assert s[i] == if i < 8 then a[i] else if i < 13 then b[i - 9] else if i < 18 then c[i - 14]
                       else if i < 23 then d[i - 19] else e[i - 24];
      }
    }
  }

  lemma SessionIdsSplit(s: string)
    requires IsSessionId(s)
    ensures |s| == 36 && s == s[..8] + "-" + s[9..13] + "-" + s[14..18] + "-" + s[19..23] + "-" + s[24..]
  {
    assert s[8] == s[13] == s[18] == s[23] == '-';
  }

  function FileOf(files: map<string, File>, sid: string): File {
    if sid in files then files[sid] else Absent
  }

  function ReadAt(files: map<string, File>, sid: string, ioError: bool): ReadResult {
    if IsSessionId(sid) then Read(FileOf(files, sid), sid, ioError) else Unreadable
  }

  /** What the disk shows after a write. */
  function Shown(files: map<string, File>, sid: string, r: Record, fate: Fate): map<string, File> {
    if IsSessionId(sid) && !fate.FailsBeforeRename? then files[sid := Save(r)] else files
  }

  /** What survives a crash right after a write. */
  function Kept(files: map<string, File>, sid: string, r: Record, fate: Fate): map<string, File> {
    if IsSessionId(sid) && fate.Lands? then files[sid := Save(r)] else files
  }

  /** What the disk becomes when a plan is carried out. */
  function After(files: map<string, File>, sid: string, plan: Result<Record, Refusal>, fate: Fate): map<string, File> {
    if plan.Ok? then Shown(files, sid, plan.value, fate) else files
  }

  function Answer(sid: string, plan: Result<Record, Refusal>, fate: Fate): Result<Record, Refusal> {
    if plan.Ok? && !(IsSessionId(sid) && fate.Lands?) then Err(WriteFailed) else plan
  }

  /** What becomes of a write: visible from the rename on, kept through a crash and reported only when it lands. */
  lemma FatesOf(files: map<string, File>, sid: string, r: Record, fate: Fate, other: string)
    requires IsSessionId(sid)
    ensures FileOf(Shown(files, sid, r, fate), sid) == if fate == FailsBeforeRename then FileOf(files, sid) else Save(r)
    ensures FileOf(Kept(files, sid, r, fate), sid) == if fate == Lands then Save(r) else FileOf(files, sid)
    ensures Answer(sid, Ok(r), fate).Ok? <==> fate == Lands
    ensures other != sid ==>
      FileOf(Shown(files, sid, r, fate), other) == FileOf(Kept(files, sid, r, fate), other) == FileOf(files, other)
    ensures forall e :: After(files, sid, Err(e), fate) == files && Answer(sid, Err(e), fate) == Err(e)
    ensures After(files, sid, Ok(r), fate) == Shown(files, sid, r, fate) && (fate == Lands ==> Answer(sid, Ok(r), fate) == Ok(r))
  {
  }

  /** A read looks at its own session's file, and fails for an id of another shape. */
  lemma ReadsOwnFile(files: map<string, File>, sid: string, ioError: bool)
    ensures !IsSessionId(sid) || ioError ==> ReadAt(files, sid, ioError).Unreadable?
    ensures IsSessionId(sid) && !ioError && sid !in files ==> ReadAt(files, sid, ioError).NoRecord?
    ensures IsSessionId(sid) && !ioError && sid in files ==> ReadAt(files, sid, ioError) == Read(files[sid], sid, false)
  {
  }

  /** Boot recovery rewrites exactly the files of unresolved attempts not yet marked, unless the write fails before its rename. */
  lemma RecoveredExactly(kept: File, f: File, sid: string, ioError: bool, fate: Fate, now: string)
    requires sid != "" && now != "" && (Read(f, sid, false).Readable? ==> Distinct(Ids(Read(f, sid, false).record)))
    ensures var read := Read(f, sid, ioError);
      && (Recovered(f, sid, ioError, fate, now) == f
        || (IsSessionId(sid) && read.Readable? && read.record.state != Resolved && fate != FailsBeforeRename))
      && (IsSessionId(sid) && read.Readable? && read.record.state != Resolved && !Truthy(read.record.orphanedAt)
          && fate != FailsBeforeRename ==>
        var after := Read(Recovered(f, sid, ioError, fate, now), sid, false);
        && after.Readable? && after.record.state == Uncertain && after.record.orphanedAt == Some(now)
        && SameAttempt(read.record, after.record))
      && (fate != Lands ==> RecoveredKept(kept, f, sid, ioError, fate, now) == kept)
      && (IsSessionId(sid) && read.Readable? && read.record.state != Resolved && !Truthy(read.record.orphanedAt) && fate == Lands ==>
        RecoveredKept(kept, f, sid, ioError, fate, now) == Recovered(f, sid, ioError, fate, now))
  {
    hide IsSessionId, Distinct, Ids, Outcomes;
    var read := Read(f, sid, ioError);
    if read.Readable? && PlanRecover(read, now).Some? {
      ReadableExactly(f, sid);
      RecoverSucceeds(read, sid, now);
      ReadSaved(PlanRecover(read, now).value, sid);
    }
  }

  class RecreateAttemptStore {
    /** Attempts begun or adopted by this process run and not yet resolved. */
    var active: set<string>
    /** What a read finds under each session, and what a crash would leave. */
    var visible: map<string, File>
    var durable: map<string, File>

    constructor (disk: map<string, File>)
      ensures active == {} && visible == durable == disk
    {
      active, visible, durable := {}, disk, disk;
    }

    method ReadRecord(sid: string, ioError: bool) returns (r: ReadResult)
      ensures r == ReadAt(visible, sid, ioError)
    {
      if !IsSessionId(sid) || ioError {
        return Unreadable;
      }
      r := if sid in visible then Read(visible[sid], sid, false) else NoRecord;
    }

    method Write(sid: string, r: Record, fate: Fate) returns (ok: bool)
      modifies this`visible, this`durable
      ensures visible == Shown(old(visible), sid, r, fate)
      ensures durable == Kept(old(durable), sid, r, fate)
      ensures ok == (IsSessionId(sid) && fate.Lands?)
    {
      if !IsSessionId(sid) || fate == FailsBeforeRename {
        return false;
      }
      visible := visible[sid := Save(r)];
      if fate == FailsAfterRename {
        return false;
      }
      durable := durable[sid := Save(r)];
      ok := true;
    }

    method AssertResolved(sid: string, ioError: bool) returns (refusal: Option<Refusal>)
      ensures refusal == if PassesGate(ReadAt(visible, sid, ioError)) then None else Some(UnresolvedRefusal)
    {
      var r := ReadRecord(sid, ioError);
      refusal := if r.NoRecord? || (r.Readable? && r.record.state == Resolved) then None else Some(UnresolvedRefusal);
    }

    method AssertResolvedAndNotRetained(sid: string, ioError1: bool, ioError2: bool) returns (refusal: Option<Refusal>)
      ensures refusal == if !PassesGate(ReadAt(visible, sid, ioError1)) then Some(UnresolvedRefusal)
                         else if PassesRetainedCheck(ReadAt(visible, sid, ioError2)) then None else Some(RetainedRefusal)
    {
      refusal := AssertResolved(sid, ioError1);
      if refusal == None {
        var r := ReadRecord(sid, ioError2);
        if r.Readable? && r.record.retained.Some? {
          refusal := Some(RetainedRefusal);
        }
      }
    }

    method Begin(sid: string, id: Identity, extra: Extra, now: string, ioError: bool, fate: Fate)
      returns (r: Result<Record, Refusal>)
      modifies this
      ensures var read := ReadAt(old(visible), sid, ioError);
        && var plan := PlanBegin(read, sid, id, extra, now);
        && visible == After(old(visible), sid, plan, fate)
        && durable == (if plan.Ok? then Kept(old(durable), sid, plan.value, fate) else old(durable))
        && r == Answer(sid, plan, fate)
        && active == old(active) + if plan.Ok? then {id.attemptId} else {}
    {
      var read := ReadRecord(sid, ioError);
      r := PlanBegin(read, sid, id, extra, now);
      if r.Ok? {
        active := active + {id.attemptId};
        var ok := Write(sid, r.value, fate);
        if !ok { r := Err(WriteFailed); }
      }
    }

    method MarkUncertain(sid: string, a: string, reason: string, now: string, ioError: bool, fate: Fate)
      returns (r: Result<Record, Refusal>)
      modifies this`visible, this`durable
      ensures var plan := PlanMarkUncertain(ReadAt(old(visible), sid, ioError), a, active, reason, now);
        && visible == After(old(visible), sid, plan, fate)
        && durable == (if plan.Ok? then Kept(old(durable), sid, plan.value, fate) else old(durable))
        && r == Answer(sid, plan, fate)
    {
      var read := ReadRecord(sid, ioError);
      r := PlanMarkUncertain(read, a, active, reason, now);
      if r.Ok? {
        var ok := Write(sid, r.value, fate);
        if !ok { r := Err(WriteFailed); }
      }
    }

    method Resolve(sid: string, a: string, outcome: Outcome, reason: string, retained: Option<Retained>, now: string,
                   ioError: bool, fate: Fate)
      returns (r: Result<Record, Refusal>)
      modifies this
      ensures var plan := PlanResolve(ReadAt(old(visible), sid, ioError), a, old(active), outcome, reason, retained, now);
        && visible == After(old(visible), sid, plan, fate)
        && durable == (if plan.Ok? then Kept(old(durable), sid, plan.value, fate) else old(durable))
        && r == Answer(sid, plan, fate)
        && active == old(active) - if r.Ok? then {a} else {}
    {
      var read := ReadRecord(sid, ioError);
      r := PlanResolve(read, a, active, outcome, reason, retained, now);
      if r.Ok? {
        var ok := Write(sid, r.value, fate);
        if ok { active := active - {a}; } else { r := Err(WriteFailed); }
      }
    }

    method Adopt(sid: string, a: string, now: string, recoveredAt: string, ioError: bool, fate: Fate)
      returns (r: Result<Record, Refusal>)
      modifies this
      ensures var plan := PlanAdopt(ReadAt(old(visible), sid, ioError), a, now, recoveredAt);
        && visible == After(old(visible), sid, plan, fate)
        && durable == (if plan.Ok? then Kept(old(durable), sid, plan.value, fate) else old(durable))
        && r == Answer(sid, plan, fate)
        && active == old(active) + if r.Ok? then {a} else {}
    {
      var read := ReadRecord(sid, ioError);
      r := PlanAdopt(read, a, now, recoveredAt);
      if r.Ok? {
        var ok := Write(sid, r.value, fate);
        if ok { active := active + {a}; } else { r := Err(WriteFailed); }
      }
    }

    method Approve(sid: string, now: string, ioError: bool, fate: Fate) returns (r: Result<Record, Refusal>)
      modifies this`visible, this`durable
      ensures var plan := PlanApprove(ReadAt(old(visible), sid, ioError), now);
        && visible == After(old(visible), sid, plan, fate)
        && durable == (if plan.Ok? then Kept(old(durable), sid, plan.value, fate) else old(durable))
        && r == Answer(sid, plan, fate)
    {
      var read := ReadRecord(sid, ioError);
      r := PlanApprove(read, now);
      if r.Ok? {
        var ok := Write(sid, r.value, fate);
        if !ok { r := Err(WriteFailed); }
      }
    }

    /** Boot: mark every attempt another process left unresolved, whatever becomes of the other sessions' writes. */
    method RecoverOnBoot(dir: seq<string>, ioErrors: set<string>, fates: map<string, Fate>, now: string)
      returns (uncertain: seq<string>, unreadable: seq<string>)
      requires forall i, j :: 0 <= i < j < |dir| ==> dir[i] != dir[j]
      requires forall sid :: sid in dir ==> sid in fates
      modifies this`visible, this`durable
      ensures forall sid :: sid in dir ==>
        FileOf(visible, sid) == Recovered(FileOf(old(visible), sid), sid, sid in ioErrors, fates[sid], now)
      ensures forall sid :: sid !in dir ==> FileOf(visible, sid) == FileOf(old(visible), sid)
      ensures forall sid :: sid in dir ==>
        FileOf(durable, sid) == RecoveredKept(FileOf(old(durable), sid), FileOf(old(visible), sid), sid, sid in ioErrors, fates[sid], now)
      ensures forall sid :: sid !in dir ==> FileOf(durable, sid) == FileOf(old(durable), sid)
      ensures forall sid :: sid in unreadable <==> sid in dir && IsSessionId(sid) && ReadAt(old(visible), sid, sid in ioErrors).Unreadable?
      ensures forall sid :: sid in uncertain <==>
        sid in dir && IsSessionId(sid) && ReadAt(old(visible), sid, sid in ioErrors).Readable?
        && ReadAt(old(visible), sid, sid in ioErrors).record.state != Resolved
    {
      hide IsSessionId, ReadAt, FileOf, Recovered;
      uncertain, unreadable := [], [];
      for n := 0 to |dir|
        invariant forall sid :: sid in dir[..n] ==>
          FileOf(visible, sid) == Recovered(FileOf(old(visible), sid), sid, sid in ioErrors, fates[sid], now)
        invariant forall sid :: sid !in dir[..n] ==> FileOf(visible, sid) == FileOf(old(visible), sid)
        invariant forall sid :: sid in dir[..n] ==>
          FileOf(durable, sid) == RecoveredKept(FileOf(old(durable), sid), FileOf(old(visible), sid), sid, sid in ioErrors, fates[sid], now)
        invariant forall sid :: sid !in dir[..n] ==> FileOf(durable, sid) == FileOf(old(durable), sid)
        invariant forall sid :: sid in unreadable <==>
          sid in dir[..n] && IsSessionId(sid) && ReadAt(old(visible), sid, sid in ioErrors).Unreadable?
        invariant forall sid :: sid in uncertain <==>
          sid in dir[..n] && IsSessionId(sid) && ReadAt(old(visible), sid, sid in ioErrors).Readable?
          && ReadAt(old(visible), sid, sid in ioErrors).record.state != Resolved
      {
        var sid := dir[n];
        assert dir[..n + 1] == dir[..n] + [sid];
        assert sid !in dir[..n];
        if IsSessionId(sid) {
          SameRead(visible, old(visible), sid, sid in ioErrors);
          var read := RecoverOne(sid, sid in ioErrors, fates[sid], now);
          if read.Unreadable? {
            unreadable := unreadable + [sid];
          } else if read.Readable? && read.record.state != Resolved {
            uncertain := uncertain + [sid];
          }
        } else {
          NotRecovered(FileOf(visible, sid), sid, sid in ioErrors, fates[sid], now);
        }
      }
      assert dir[..|dir|] == dir;
    }

    method RecoverOne(sid: string, ioError: bool, fate: Fate, now: string) returns (read: ReadResult)
      requires IsSessionId(sid)
      modifies this`visible, this`durable
      ensures read == ReadAt(old(visible), sid, ioError)
      ensures FileOf(visible, sid) == Recovered(FileOf(old(visible), sid), sid, ioError, fate, now)
      ensures forall x :: x != sid ==> FileOf(visible, x) == FileOf(old(visible), x)
      ensures FileOf(durable, sid) == RecoveredKept(FileOf(old(durable), sid), FileOf(old(visible), sid), sid, ioError, fate, now)
      ensures forall x :: x != sid ==> FileOf(durable, x) == FileOf(old(durable), x)
    {
      hide IsSessionId, Read;
      read := ReadRecord(sid, ioError);
      if read.Readable? && read.record.state != Resolved {
        var next := PlanRecover(read, now);
        if next.Some? {
          var _ := Write(sid, next.value, fate);
        }
      }
    }
  }

  lemma SameRead(a: map<string, File>, b: map<string, File>, sid: string, ioError: bool)
    requires FileOf(a, sid) == FileOf(b, sid)
    ensures ReadAt(a, sid, ioError) == ReadAt(b, sid, ioError)
  {
  }

  lemma NotRecovered(f: File, sid: string, ioError: bool, fate: Fate, now: string)
    requires !IsSessionId(sid)
    ensures Recovered(f, sid, ioError, fate, now) == f
  {
  }

  /** One session's file after boot recovery. */
  function Recovered(f: File, sid: string, ioError: bool, fate: Fate, now: string): File {
    if !IsSessionId(sid) then f
    else
      var next := PlanRecover(Read(f, sid, ioError), now);
      if next.Some? && fate != FailsBeforeRename then Save(next.value) else f
  }

  /** What a crash then leaves: the same, when there was a write and it landed. */
  function RecoveredKept(kept: File, f: File, sid: string, ioError: bool, fate: Fate, now: string): File {
    if fate == Lands && IsSessionId(sid) && PlanRecover(Read(f, sid, ioError), now).Some? then Recovered(f, sid, ioError, fate, now)
    else kept
  }
}
