/**
 The durable record of a container recreation (backend/src/recreateAttempt.ts:44-107),
 the JSON it is written as, and the strict parser that reads it back.

 JSON text itself is not modelled: a file holds the value that its text denotes.
 */
module AttemptRecord {
  import opened Wrappers

  // ----- JSON

  /** The object keys this file format knows; every other key is an `Other`. */
  datatype Key =
    | Version | SessionIdKey | AttemptId | OContainerId | OCanonicalName | OOldName | NTempName
    | StartedAt | StateKey | StateAt | OutcomeKey | Reason | OrphanedAt | History | Preserve
    | Reverse | RetainedContainerId | RetainedKey | ApprovedAt | RecoveredAt
    | Kind | NContainerId | Entries | Bytes | ContainerId | Name | RoleKey | Since | ResolvedAt
    | Other(name: string)

  datatype Json =
    | Null
    | Bool(value: bool)
    | Num(number: real)
    | Str(text: string)
    | Arr(items: seq<Json>)
    | Obj(fields: map<Key, Json>)

  const RECORD_KEYS: set<Key> := {
    Version, SessionIdKey, AttemptId, OContainerId, OCanonicalName, OOldName, NTempName,
    StartedAt, StateKey, StateAt, OutcomeKey, Reason, OrphanedAt, History, Preserve,
    Reverse, RetainedContainerId, RetainedKey, ApprovedAt, RecoveredAt}

  function Get(fields: map<Key, Json>, k: Key): Option<Json> {
    if k in fields then Some(fields[k]) else None
  }

  /** A non-empty string under a key. */
  predicate HasText(fields: map<Key, Json>, k: Key) {
    k in fields && fields[k].Str? && fields[k].text != ""
  }

  /** A string under a key, or no such key. */
  predicate TextOrAbsent(fields: map<Key, Json>, k: Key) {
    k in fields ==> fields[k].Str?
  }

  function TextAt(fields: map<Key, Json>, k: Key): Option<string>
    requires TextOrAbsent(fields, k)
  {
    if k in fields then Some(fields[k].text) else None
  }

  // ----- The record

  datatype State = Open | Uncertain | Resolved

  datatype Outcome = Committed(nContainerId: string) | RolledBack

  datatype Carry = Carry(entries: real, bytes: real)

  datatype Role = O | N

  datatype Retained = Retained(containerId: string, name: string, role: Role, since: string)

  datatype Identity = Identity(
    attemptId: string, oContainerId: string, oCanonicalName: string, oOldName: string, nTempName: string)

  datatype Past = Past(attemptId: string, outcome: Outcome, resolvedAt: string)

  datatype Record = Record(
    sessionId: string,
    identity: Identity,
    startedAt: string,
    state: State,
    stateAt: string,
    outcome: Option<Outcome>,
    reason: Option<string>,
    orphanedAt: Option<string>,
    recoveredAt: Option<string>,
    preserve: Option<Carry>,
    reverse: bool,
    retainedContainerId: Option<string>,
    retained: Option<Retained>,
    approvedAt: Option<string>,
    history: seq<Past>)

  // ----- Writing

  function OptText(s: Option<string>): Option<Json> {
    match s case None => None case Some(t) => Some(Str(t))
  }

  function OutcomeJson(o: Outcome): Json {
    match o
    case Committed(n) => Obj(map[Kind := Str("committed"), NContainerId := Str(n)])
    case RolledBack => Obj(map[Kind := Str("rolled-back")])
  }

  function CarryJson(c: Carry): Json {
    Obj(map[Entries := Num(c.entries), Bytes := Num(c.bytes)])
  }

  function RetainedJson(r: Retained): Json {
    Obj(map[ContainerId := Str(r.containerId), Name := Str(r.name),
            RoleKey := Str(if r.role == O then "O" else "N"), Since := Str(r.since)])
  }

  function PastJson(p: Past): Json {
    Obj(map[AttemptId := Str(p.attemptId), OutcomeKey := OutcomeJson(p.outcome), ResolvedAt := Str(p.resolvedAt)])
  }

  function HistoryJson(h: seq<Past>): (items: seq<Json>)
    ensures |items| == |h|
  {
    if h == [] then [] else [PastJson(h[0])] + HistoryJson(h[1..])
  }

  function StateText(s: State): string {
    match s case Open => "open" case Uncertain => "uncertain" case Resolved => "resolved"
  }

  /** What a record says under one key; `None` is a key JSON.stringify leaves out. */
  function Field(r: Record, k: Key): Option<Json> {
    match k
    case Version => Some(Num(1.0))
    case SessionIdKey => Some(Str(r.sessionId))
    case AttemptId => Some(Str(r.identity.attemptId))
    case OContainerId => Some(Str(r.identity.oContainerId))
    case OCanonicalName => Some(Str(r.identity.oCanonicalName))
    case OOldName => Some(Str(r.identity.oOldName))
    case NTempName => Some(Str(r.identity.nTempName))
    case StartedAt => Some(Str(r.startedAt))
    case StateKey => Some(Str(StateText(r.state)))
    case StateAt => Some(Str(r.stateAt))
    case OutcomeKey => (match r.outcome case None => None case Some(o) => Some(OutcomeJson(o)))
    case Reason => OptText(r.reason)
    case OrphanedAt => OptText(r.orphanedAt)
    case RecoveredAt => OptText(r.recoveredAt)
    case Preserve => (match r.preserve case None => None case Some(c) => Some(CarryJson(c)))
    case Reverse => if r.reverse then Some(Bool(true)) else None
    case RetainedContainerId => OptText(r.retainedContainerId)
    case RetainedKey => (match r.retained case None => None case Some(x) => Some(RetainedJson(x)))
    case ApprovedAt => OptText(r.approvedAt)
    case History => Some(Arr(HistoryJson(r.history)))
    case _ => None
  }

  function ToJson(r: Record): Json {
    Obj(map k | k in RECORD_KEYS && Field(r, k).Some? :: Field(r, k).value)
  }

  // ----- Reading

  function ParseOutcome(v: Json): Option<Outcome> {
    if !v.Obj? then None
    else if Get(v.fields, Kind) == Some(Str("rolled-back")) then
      if |v.fields| == 1 then Some(RolledBack) else None
    else if Get(v.fields, Kind) == Some(Str("committed")) && HasText(v.fields, NContainerId) && |v.fields| == 2 then
      Some(Committed(v.fields[NContainerId].text))
    else None
  }

  function ParseCarry(v: Json): Option<Carry> {
    if v.Obj? && |v.fields| == 2
       && Entries in v.fields && v.fields[Entries].Num? && v.fields[Entries].number >= 0.0
       && Bytes in v.fields && v.fields[Bytes].Num? && v.fields[Bytes].number >= 0.0
    then Some(Carry(v.fields[Entries].number, v.fields[Bytes].number))
    else None
  }

  function ParseRetained(v: Json): Option<Retained> {
    if v.Obj? && |v.fields| == 4
       && HasText(v.fields, ContainerId) && HasText(v.fields, Name)
       && (Get(v.fields, RoleKey) == Some(Str("O")) || Get(v.fields, RoleKey) == Some(Str("N")))
       && Since in v.fields && v.fields[Since].Str?
    then Some(Retained(v.fields[ContainerId].text, v.fields[Name].text,
                       if v.fields[RoleKey] == Str("O") then O else N, v.fields[Since].text))
    else None
  }

  function ParsePast(v: Json): Option<Past> {
    if v.Obj? && |v.fields| == 3
       && AttemptId in v.fields && v.fields[AttemptId].Str?
       && ResolvedAt in v.fields && v.fields[ResolvedAt].Str?
       && OutcomeKey in v.fields && ParseOutcome(v.fields[OutcomeKey]).Some?
    then Some(Past(v.fields[AttemptId].text, ParseOutcome(v.fields[OutcomeKey]).value, v.fields[ResolvedAt].text))
    else None
  }

  function ParseHistory(items: seq<Json>): (h: Option<seq<Past>>)
    ensures h.Some? ==> |h.value| == |items|
  {
    if items == [] then Some([])
    else
      match (ParsePast(items[0]), ParseHistory(items[1..]))
      case (Some(p), Some(rest)) => Some([p] + rest)
      case _ => None
  }

  function ParseState(v: Option<Json>): Option<State> {
    if v == Some(Str("open")) then Some(Open)
    else if v == Some(Str("uncertain")) then Some(Uncertain)
    else if v == Some(Str("resolved")) then Some(Resolved)
    else None
  }

  /** The keys and types every record must have (recreateAttempt.ts:235-252). */
  predicate KnownKeys(m: map<Key, Json>) {
    m.Keys <= RECORD_KEYS
  }

  predicate HeaderOk(m: map<Key, Json>, sid: string) {
    && KnownKeys(m)
    && Get(m, Version) == Some(Num(1.0))
    && HasText(m, SessionIdKey) && m[SessionIdKey].text == sid
    && HasText(m, AttemptId) && HasText(m, OContainerId) && HasText(m, OCanonicalName)
    && HasText(m, OOldName) && HasText(m, NTempName) && HasText(m, StartedAt) && HasText(m, StateAt)
  }

  /** The parts that may be absent, each allowed only in some states (recreateAttempt.ts:253-284). */
  predicate DetailsOk(m: map<Key, Json>, state: State) {
    && (if state == Resolved then OutcomeKey in m && ParseOutcome(m[OutcomeKey]).Some? else OutcomeKey !in m)
    && TextOrAbsent(m, Reason) && TextOrAbsent(m, RecoveredAt)
    && (OrphanedAt in m ==>
          m[OrphanedAt].Str? && (state == Uncertain || (state == Resolved && RecoveredAt in m)))
    && (Preserve in m ==> ParseCarry(m[Preserve]).Some?)
    && (Reverse in m ==> m[Reverse] == Bool(true))
    && (RetainedContainerId in m ==> HasText(m, RetainedContainerId) && Reverse in m)
    && (RetainedKey in m ==> ParseRetained(m[RetainedKey]).Some? && state == Resolved)
    && (ApprovedAt in m ==> m[ApprovedAt].Str? && state == Resolved)
  }

  function ParseRecord(v: Json, sid: string): Option<Record> {
    if !v.Obj? || !HeaderOk(v.fields, sid) then None
    else
      var m := v.fields;
      match ParseState(Get(m, StateKey))
      case None => None
      case Some(state) =>
        if !DetailsOk(m, state) || History !in m || !m[History].Arr? then None
        else
          match ParseHistory(m[History].items)
          case None => None
          case Some(history) => Some(Assemble(m, sid, state, history))
  }

  function Assemble(m: map<Key, Json>, sid: string, state: State, history: seq<Past>): Record
    requires HeaderOk(m, sid) && DetailsOk(m, state)
  {
    Record(
      m[SessionIdKey].text,
      Identity(m[AttemptId].text, m[OContainerId].text, m[OCanonicalName].text, m[OOldName].text, m[NTempName].text),
      m[StartedAt].text, state, m[StateAt].text,
      if OutcomeKey in m then ParseOutcome(m[OutcomeKey]) else None,
      TextAt(m, Reason), TextAt(m, OrphanedAt), TextAt(m, RecoveredAt),
      if Preserve in m then ParseCarry(m[Preserve]) else None,
      Reverse in m,
      TextAt(m, RetainedContainerId),
      if RetainedKey in m then ParseRetained(m[RetainedKey]) else None,
      TextAt(m, ApprovedAt),
      history)
  }

  // ----- Which records the format can hold

  predicate OutcomeOk(o: Outcome) {
    o.Committed? ==> o.nContainerId != ""
  }

  predicate RetainedOk(r: Retained) {
    r.containerId != "" && r.name != ""
  }

  predicate CarryOk(c: Carry) {
    c.entries >= 0.0 && c.bytes >= 0.0
  }

  predicate IdentityOk(i: Identity) {
    i.attemptId != "" && i.oContainerId != "" && i.oCanonicalName != "" && i.oOldName != "" && i.nTempName != ""
  }

  predicate WellFormed(r: Record, sid: string) {
    && r.sessionId == sid && sid != ""
    && IdentityOk(r.identity) && r.startedAt != "" && r.stateAt != ""
    && (r.outcome.Some? <==> r.state == Resolved)
    && (r.outcome.Some? ==> OutcomeOk(r.outcome.value))
    && (r.orphanedAt.Some? ==> r.state == Uncertain || (r.state == Resolved && r.recoveredAt.Some?))
    && (r.preserve.Some? ==> CarryOk(r.preserve.value))
    && (r.retainedContainerId.Some? ==> r.retainedContainerId.value != "" && r.reverse)
    && (r.retained.Some? ==> RetainedOk(r.retained.value) && r.state == Resolved)
    && (r.approvedAt.Some? ==> r.state == Resolved)
    && (forall i :: 0 <= i < |r.history| ==> OutcomeOk(r.history[i].outcome))
  }

  // ----- Round trips

  lemma OutcomeRoundTrip(o: Outcome)
    requires OutcomeOk(o)
    ensures ParseOutcome(OutcomeJson(o)) == Some(o)
  {
    assert "committed"[0] != "rolled-back"[0];
    match o
    case Committed(n) => assert OutcomeJson(o).fields.Keys == {Kind, NContainerId};
    case RolledBack => assert OutcomeJson(o).fields.Keys == {Kind};
  }

  lemma OutcomeFaithful(v: Json)
    requires ParseOutcome(v).Some?
    ensures OutcomeOk(ParseOutcome(v).value) && OutcomeJson(ParseOutcome(v).value) == v
  {
    var m := v.fields;
    if Get(m, Kind) == Some(Str("rolled-back")) {
      KeysAre(m, {Kind});
    } else {
      KeysAre(m, {Kind, NContainerId});
    }
    assert OutcomeJson(ParseOutcome(v).value).fields == m;
  }

  /** Known keys, as many as there are keys: there are no others. */
  lemma KeysAre(m: map<Key, Json>, keys: set<Key>)
    requires keys <= m.Keys && |keys| == |m|
    ensures m.Keys == keys
  {
    var rest := m.Keys - keys;
    assert m.Keys == keys + rest && |m.Keys| == |keys| + |rest|;
  }

  lemma CarryFaithful(v: Json)
    requires ParseCarry(v).Some?
    ensures CarryOk(ParseCarry(v).value) && CarryJson(ParseCarry(v).value) == v
  {
    KeysAre(v.fields, {Entries, Bytes});
    assert CarryJson(ParseCarry(v).value).fields == v.fields;
  }

  lemma CarryRoundTrip(c: Carry)
    requires CarryOk(c)
    ensures ParseCarry(CarryJson(c)) == Some(c)
  {
    assert CarryJson(c).fields.Keys == {Entries, Bytes};
  }

  lemma RetainedRoundTrip(r: Retained)
    requires RetainedOk(r)
    ensures ParseRetained(RetainedJson(r)) == Some(r)
  {
    assert "O"[0] != "N"[0];
    assert RetainedJson(r).fields.Keys == {ContainerId, Name, RoleKey, Since};
  }

  lemma RetainedFaithful(v: Json)
    requires ParseRetained(v).Some?
    ensures RetainedOk(ParseRetained(v).value) && RetainedJson(ParseRetained(v).value) == v
  {
    assert "O"[0] != "N"[0];
    KeysAre(v.fields, {ContainerId, Name, RoleKey, Since});
    assert RetainedJson(ParseRetained(v).value).fields == v.fields;
  }

  lemma PastRoundTrip(p: Past)
    requires OutcomeOk(p.outcome)
    ensures ParsePast(PastJson(p)) == Some(p)
  {
    OutcomeRoundTrip(p.outcome);
    assert PastJson(p).fields.Keys == {AttemptId, OutcomeKey, ResolvedAt};
  }

  lemma PastFaithful(v: Json)
    requires ParsePast(v).Some?
    ensures OutcomeOk(ParsePast(v).value.outcome) && PastJson(ParsePast(v).value) == v
  {
    OutcomeFaithful(v.fields[OutcomeKey]);
    KeysAre(v.fields, {AttemptId, OutcomeKey, ResolvedAt});
    assert PastJson(ParsePast(v).value).fields == v.fields;
  }

  lemma {:induction false} HistoryRoundTrip(h: seq<Past>)
    requires forall i :: 0 <= i < |h| ==> OutcomeOk(h[i].outcome)
    ensures ParseHistory(HistoryJson(h)) == Some(h)
  {
    if h != [] {
      PastRoundTrip(h[0]);
      HistoryRoundTrip(h[1..]);
      assert HistoryJson(h)[1..] == HistoryJson(h[1..]);
      assert [h[0]] + h[1..] == h;
    }
  }

  lemma {:induction false} HistoryFaithful(items: seq<Json>)
    requires ParseHistory(items).Some?
    ensures var h := ParseHistory(items).value;
      HistoryJson(h) == items && forall i :: 0 <= i < |h| ==> OutcomeOk(h[i].outcome)
  {
    if items != [] {
      PastFaithful(items[0]);
      HistoryFaithful(items[1..]);
      var h := ParseHistory(items).value;
      assert h[0] == ParsePast(items[0]).value && h[1..] == ParseHistory(items[1..]).value;
      assert [items[0]] + items[1..] == items;
      forall i | 0 <= i < |h| ensures OutcomeOk(h[i].outcome) {
        assert i > 0 ==> h[i] == h[1..][i - 1];
      }
    }
  }

  lemma StateTextParses(s: State)
    ensures ParseState(Some(Str(StateText(s)))) == Some(s)
  {
    assert |"open"| == 4 && |"uncertain"| == 9 && |"resolved"| == 8;
  }

  /** Under key `k` the object holds exactly `f`. */
  ghost predicate Says(m: map<Key, Json>, k: Key, f: Option<Json>) {
    Get(m, k) == f
  }

  /** An object says under every key what the record says there. */
  ghost predicate SaysAll(m: map<Key, Json>, r: Record) {
    KnownKeys(m) && forall k :: Says(m, k, Field(r, k))
  }

  lemma WrittenSays(r: Record)
    ensures SaysAll(ToJson(r).fields, r)
  {
    hide OutcomeJson, CarryJson, RetainedJson, HistoryJson;
    forall k ensures Says(ToJson(r).fields, k, Field(r, k)) {
      assert k !in RECORD_KEYS ==> Field(r, k) == None;
    }
  }

  lemma SaysHeader(m: map<Key, Json>, r: Record, sid: string)
    requires SaysAll(m, r) && WellFormed(r, sid)
    ensures HeaderOk(m, sid)
  {
    hide OutcomeJson, CarryJson, RetainedJson, HistoryJson;
    assert Says(m, Version, Field(r, Version)) && Says(m, SessionIdKey, Field(r, SessionIdKey));
    assert Says(m, AttemptId, Field(r, AttemptId)) && Says(m, OContainerId, Field(r, OContainerId));
    assert Says(m, OCanonicalName, Field(r, OCanonicalName)) && Says(m, OOldName, Field(r, OOldName));
    assert Says(m, NTempName, Field(r, NTempName)) && Says(m, StartedAt, Field(r, StartedAt));
    assert Says(m, StateAt, Field(r, StateAt));
  }

  lemma SaysDetails(m: map<Key, Json>, r: Record, sid: string)
    requires SaysAll(m, r) && WellFormed(r, sid)
    ensures DetailsOk(m, r.state)
    ensures OutcomeKey in m <==> r.outcome.Some?
    ensures OutcomeKey in m ==> ParseOutcome(m[OutcomeKey]) == r.outcome
    ensures Preserve in m <==> r.preserve.Some?
    ensures Preserve in m ==> ParseCarry(m[Preserve]) == r.preserve
    ensures RetainedKey in m <==> r.retained.Some?
    ensures RetainedKey in m ==> ParseRetained(m[RetainedKey]) == r.retained
  {
    hide KnownKeys, OutcomeJson, CarryJson, RetainedJson, HistoryJson, ParseOutcome, ParseCarry, ParseRetained;
    assert Says(m, OutcomeKey, Field(r, OutcomeKey)) && Says(m, Reason, Field(r, Reason));
    assert Says(m, RecoveredAt, Field(r, RecoveredAt)) && Says(m, OrphanedAt, Field(r, OrphanedAt));
    assert Says(m, Preserve, Field(r, Preserve)) && Says(m, Reverse, Field(r, Reverse));
    assert Says(m, RetainedContainerId, Field(r, RetainedContainerId)) && Says(m, RetainedKey, Field(r, RetainedKey));
    assert Says(m, ApprovedAt, Field(r, ApprovedAt));
    if r.outcome.Some? { OutcomeRoundTrip(r.outcome.value); }
    if r.preserve.Some? { CarryRoundTrip(r.preserve.value); }
    if r.retained.Some? { RetainedRoundTrip(r.retained.value); }
  }

  /** What the parser puts together is the record the object says. */
  lemma SaysAssembled(m: map<Key, Json>, r: Record, sid: string)
    requires SaysAll(m, r) && WellFormed(r, sid) && HeaderOk(m, sid) && DetailsOk(m, r.state)
    ensures Assemble(m, sid, r.state, r.history) == r
  {
    hide KnownKeys, WellFormed, OutcomeJson, CarryJson, RetainedJson, HistoryJson, ParseOutcome, ParseCarry, ParseRetained;
    SaysDetails(m, r, sid);
    assert Says(m, SessionIdKey, Field(r, SessionIdKey));
    assert Says(m, AttemptId, Field(r, AttemptId)) && Says(m, OContainerId, Field(r, OContainerId));
    assert Says(m, OCanonicalName, Field(r, OCanonicalName)) && Says(m, OOldName, Field(r, OOldName));
    assert Says(m, NTempName, Field(r, NTempName)) && Says(m, StartedAt, Field(r, StartedAt));
    assert Says(m, StateAt, Field(r, StateAt)) && Says(m, Reason, Field(r, Reason));
    assert Says(m, RecoveredAt, Field(r, RecoveredAt)) && Says(m, OrphanedAt, Field(r, OrphanedAt));
    assert Says(m, Reverse, Field(r, Reverse)) && Says(m, ApprovedAt, Field(r, ApprovedAt));
    assert Says(m, RetainedContainerId, Field(r, RetainedContainerId));
  }

  /** Whatever record is written reads back unchanged. */
  lemma RecordRoundTrip(r: Record, sid: string)
    requires WellFormed(r, sid)
    ensures ParseRecord(ToJson(r), sid) == Some(r)
  {
    hide SaysAll, HeaderOk, DetailsOk, WellFormed, Assemble, OutcomeJson, CarryJson, RetainedJson, HistoryJson, ParseState, ToJson;
    hide Field, StateText, ParseHistory;
    var m := ObjectOf(r);
    SaysHeader(m, r, sid);
    SaysDetails(m, r, sid);
    SaysAssembled(m, r, sid);
    SaysKeys(m, r);
    HistoryRoundTrip(r.history) by { HistoryOk(r, sid); }
    StateTextParses(r.state);
  }

  lemma ObjectOf(r: Record) returns (m: map<Key, Json>)
    ensures ToJson(r) == Obj(m) && SaysAll(m, r)
  {
    m := ToJson(r).fields;
    WrittenSays(r);
  }

  lemma HistoryOk(r: Record, sid: string)
    requires WellFormed(r, sid)
    ensures forall i :: 0 <= i < |r.history| ==> OutcomeOk(r.history[i].outcome)
  {
  }

  lemma SaysKeys(m: map<Key, Json>, r: Record)
    requires SaysAll(m, r)
    ensures Get(m, StateKey) == Some(Str(StateText(r.state)))
    ensures History in m && m[History] == Arr(HistoryJson(r.history))
  {
    hide HistoryJson;
    assert Says(m, StateKey, Field(r, StateKey)) && Says(m, History, Field(r, History));
  }

  predicate IsOptional(k: Key) {
    || k == OutcomeKey || k == Reason || k == OrphanedAt || k == RecoveredAt || k == Preserve || k == Reverse
    || k == RetainedContainerId || k == RetainedKey || k == ApprovedAt
  }

  /** Every key of an accepted object says what the record read from it has there. */
  lemma ParsedSays(m: map<Key, Json>, sid: string, state: State, h: seq<Past>, k: Key)
    requires HeaderOk(m, sid) && DetailsOk(m, state)
    requires Get(m, StateKey) == Some(Str(StateText(state)))
    requires Get(m, History) == Some(Arr(HistoryJson(h)))
    ensures Says(m, k, Field(Assemble(m, sid, state, h), k))
  {
    if IsOptional(k) {
      ParsedSaysDetail(m, sid, state, h, k);
    } else {
      ParsedSaysHeader(m, sid, state, h, k);
    }
    hide HeaderOk, DetailsOk, Assemble, Field, HistoryJson, StateText;
  }

  lemma ParsedSaysHeader(m: map<Key, Json>, sid: string, state: State, h: seq<Past>, k: Key)
    requires HeaderOk(m, sid) && DetailsOk(m, state) && !IsOptional(k)
    requires Get(m, StateKey) == Some(Str(StateText(state)))
    requires Get(m, History) == Some(Arr(HistoryJson(h)))
    ensures Says(m, k, Field(Assemble(m, sid, state, h), k))
  {
    hide KnownKeys, HistoryJson, StateText, OutcomeJson, CarryJson, RetainedJson, ParseOutcome, ParseCarry, ParseRetained;
    OtherKeysAbsent(m, k);
  }

  lemma OtherKeysAbsent(m: map<Key, Json>, k: Key)
    requires KnownKeys(m)
    ensures IsOfOtherObjects(k) ==> k !in m
  {
    assert k in m ==> k in RECORD_KEYS;
  }

  predicate IsOfOtherObjects(k: Key) {
    || k.Kind? || k.NContainerId? || k.Entries? || k.Bytes? || k.ContainerId? || k.Name? || k.RoleKey? || k.Since?
    || k.ResolvedAt? || k.Other?
  }

  lemma ParsedSaysDetail(m: map<Key, Json>, sid: string, state: State, h: seq<Past>, k: Key)
    requires HeaderOk(m, sid) && DetailsOk(m, state) && IsOptional(k)
    ensures Says(m, k, Field(Assemble(m, sid, state, h), k))
  {
    var r := Assemble(m, sid, state, h);
    if k == OutcomeKey {
      OutcomeSays(m, state, r);
    } else if k == Preserve {
      PreserveSays(m, state, r);
    } else if k == RetainedKey {
      RetainedSays(m, state, r);
    } else {
      TextSays(m, sid, state, h, k);
    }
    hide HeaderOk, DetailsOk, OutcomeJson, CarryJson, RetainedJson, ParseOutcome, ParseCarry, ParseRetained, TextAt, OptText;
  }

  lemma OutcomeSays(m: map<Key, Json>, state: State, r: Record)
    requires DetailsOk(m, state) && r.outcome == if OutcomeKey in m then ParseOutcome(m[OutcomeKey]) else None
    ensures Says(m, OutcomeKey, Field(r, OutcomeKey))
  {
    hide ParseOutcome, OutcomeJson, ParseCarry, ParseRetained;
    if OutcomeKey in m { OutcomeFaithful(m[OutcomeKey]); }
  }

  lemma PreserveSays(m: map<Key, Json>, state: State, r: Record)
    requires DetailsOk(m, state) && r.preserve == if Preserve in m then ParseCarry(m[Preserve]) else None
    ensures Says(m, Preserve, Field(r, Preserve))
  {
    hide ParseOutcome, CarryJson, ParseCarry, ParseRetained;
    if Preserve in m { CarryFaithful(m[Preserve]); }
  }

  lemma RetainedSays(m: map<Key, Json>, state: State, r: Record)
    requires DetailsOk(m, state) && r.retained == if RetainedKey in m then ParseRetained(m[RetainedKey]) else None
    ensures Says(m, RetainedKey, Field(r, RetainedKey))
  {
    hide ParseOutcome, RetainedJson, ParseCarry, ParseRetained;
    if RetainedKey in m { RetainedFaithful(m[RetainedKey]); }
  }

  lemma TextSays(m: map<Key, Json>, sid: string, state: State, h: seq<Past>, k: Key)
    requires HeaderOk(m, sid) && DetailsOk(m, state) && IsOptional(k) && k != OutcomeKey && k != Preserve && k != RetainedKey
    ensures Says(m, k, Field(Assemble(m, sid, state, h), k))
  {
    hide KnownKeys, HistoryJson, StateText, OutcomeJson, CarryJson, RetainedJson, ParseOutcome, ParseCarry, ParseRetained;
  }

  lemma ParsedWellFormed(m: map<Key, Json>, sid: string, state: State, h: seq<Past>)
    requires HeaderOk(m, sid) && DetailsOk(m, state) && sid != ""
    requires forall i :: 0 <= i < |h| ==> OutcomeOk(h[i].outcome)
    ensures WellFormed(Assemble(m, sid, state, h), sid)
  {
    hide OutcomeJson, CarryJson, RetainedJson, ParseOutcome, ParseCarry, ParseRetained;
    if OutcomeKey in m { OutcomeFaithful(m[OutcomeKey]); }
    if Preserve in m { CarryFaithful(m[Preserve]); }
    if RetainedKey in m { RetainedFaithful(m[RetainedKey]); }
  }

  /** The strict parser accepts nothing but what some record is written as. */
  lemma RecordFaithful(v: Json, sid: string)
    requires ParseRecord(v, sid).Some? && sid != ""
    ensures WellFormed(ParseRecord(v, sid).value, sid)
    ensures ToJson(ParseRecord(v, sid).value) == v
  {
    var r, m := ParseRecord(v, sid).value, v.fields;
    HistoryFaithful(m[History].items);
    assert Get(m, StateKey) == Some(Str(StateText(r.state)));
    ParsedWellFormed(m, sid, r.state, r.history);
    forall k ensures Says(m, k, Field(r, k)) {
      ParsedSays(m, sid, r.state, r.history, k);
    }
    SameObject(m, r);
  }

  lemma SameObject(m: map<Key, Json>, r: Record)
    requires SaysAll(m, r)
    ensures ToJson(r) == Obj(m)
  {
    hide Field;
    var w := ToJson(r).fields;
    WrittenSays(r);
    assert forall k :: Says(m, k, Field(r, k)) && Says(w, k, Field(r, k));
    assert forall k :: k in w <==> k in m;
    assert w == m;
  }
}
