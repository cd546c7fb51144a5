/**
 The dispatcher's port cache (backend/src/portMappings.ts): lookups and multi-statement writers that
 overlap at every `await`, kept coherent by an epoch counter, with a time limit behind it.

 Every D1 statement is atomic. Session rows (name, owner, status) are written elsewhere, at any time;
 a query that joins them sees a session row, or none when the session is not running.
 */
module DispatchCache {
  import opened Wrappers
  import L = LifecycleLock

  type SessionId = L.SessionId
  type Port = nat
  type LookupId = nat
  type WriterId = nat

  const CACHE_TTL_MS: nat := 30_000

  datatype SessionRow = SessionRow(containerName: string, owner: string)
  datatype Target = Target(containerName: string, isPublic: bool, owner: string)
  datatype Mapping = Mapping(port: Port, isPublic: bool)

  /** The mapping rows of one session: (session_id, container_port) is the key of the table. */
  type Rows = map<Port, bool>

  datatype Entry = Entry(targets: map<Port, Target>, expiresAt: nat)

  /** `rows` is what the query returned, once it has. */
  datatype Lookup = Lookup(sid: SessionId, started: nat, epochAtRead: nat, rows: Option<map<Port, Target>>)

  /** A writer isSet the rows or clears them. `deleted` says its DELETE took effect. */
  datatype Writer = Writer(sid: SessionId, isSet: bool, deleted: bool, todo: seq<Mapping>)

  datatype State = State(table: map<SessionId, Rows>, cache: map<SessionId, Entry>, epoch: nat,
                         lookups: map<LookupId, Lookup>, writers: map<WriterId, Writer>, now: nat)

  function RowsOf(table: map<SessionId, Rows>, sid: SessionId): Rows {
    if sid in table then table[sid] else map[]
  }

  /** The query of a lookup: the rows of the session, joined with its row. */
  function Joined(rows: Rows, session: Option<SessionRow>): map<Port, Target> {
    match session
    case None => map[]
    case Some(s) => map p | p in rows :: Target(s.containerName, rows[p], s.owner)
  }

  /** Which ports are open, and which of them to anyone. */
  function Ports(targets: map<Port, Target>): Rows {
    map p | p in targets :: targets[p].isPublic
  }

  // ----- The steps

  function Invalidate(s: State, sid: SessionId): State {
    s.(cache := s.cache - {sid}, epoch := s.epoch + 1)
  }

  predicate Hit(s: State, sid: SessionId) {
    sid in s.cache && s.cache[sid].expiresAt > s.now
  }

  /** A lookup that finds no entry still in date drops the old one, and notes the epoch before its query. */
  function Look(s: State, l: LookupId, sid: SessionId): State {
    if Hit(s, sid) then s
    else s.(cache := s.cache - {sid}, lookups := s.lookups[l := Lookup(sid, s.now, s.epoch, None)])
  }

  /** The rows are back. They are cached unless there are none, or any writer invalidated meanwhile. */
  function Populate(s: State, l: LookupId): State
    requires l in s.lookups && s.lookups[l].rows.Some?
  {
    var k := s.lookups[l];
    var done := s.(lookups := s.lookups - {l});
    if k.rows.value == map[] || s.epoch != k.epochAtRead then done
    else done.(cache := s.cache[k.sid := Entry(k.rows.value, k.started + CACHE_TTL_MS)])
  }

  /** The next statement of a writer: the DELETE, then one INSERT after another. */
  function Execute(s: State, w: WriterId): State
    requires w in s.writers && (s.writers[w].deleted ==> s.writers[w].todo != [])
  {
    var x := s.writers[w];
    if !x.deleted then
      s.(table := s.table[x.sid := map[]], writers := s.writers[w := x.(deleted := true)])
    else
      var m := x.todo[0];
      s.(table := s.table[x.sid := RowsOf(s.table, x.sid)[m.port := m.isPublic]],
         writers := s.writers[w := x.(todo := x.todo[1..])])
  }

  function Leave(s: State, w: WriterId): State {
    s.(writers := s.writers - {w})
  }

  // ----- Runs

  datatype Event =
    | Looking(l: LookupId, sid: SessionId)
    | Reading(l: LookupId, session: Option<SessionRow>)
    | Populating(l: LookupId)
    | LookupFailed(l: LookupId)
    | Writing(w: WriterId, sid: SessionId, isSet: bool, mappings: seq<Mapping>)
    | Executing(w: WriterId)
    | Returning(w: WriterId)
    | ClearThrew(w: WriterId)
    | OutOfBand(sid: SessionId, rows: Rows)
    | Ticking(now: nat)

  /**
   setPortMappings invalidates whether it returns or throws, and may do either at any point: a statement that
   reported an error may still have taken effect. clearPortMappings invalidates again only when its DELETE
   succeeded. INSERT fails on a port that has a row.
   */
  predicate Enabled(s: State, e: Event) {
    match e
    case Looking(l, _) => l !in s.lookups
    case Reading(l, _) => l in s.lookups && s.lookups[l].rows.None?
    case Populating(l) => l in s.lookups && s.lookups[l].rows.Some?
    case LookupFailed(l) => l in s.lookups
    case Writing(w, _, isSet, mappings) => w !in s.writers && (isSet || mappings == [])
    case Executing(w) =>
      && w in s.writers
      && (s.writers[w].deleted ==> s.writers[w].todo != [] && s.writers[w].todo[0].port !in RowsOf(s.table, s.writers[w].sid))
    case Returning(w) => w in s.writers && (s.writers[w].isSet || s.writers[w].deleted)
    case ClearThrew(w) => w in s.writers && !s.writers[w].isSet
    case OutOfBand(_, _) => true
    case Ticking(now) => s.now <= now
  }

  function Step(s: State, e: Event): State
    requires Enabled(s, e)
  {
    match e
    case Looking(l, sid) => Look(s, l, sid)
    case Reading(l, session) =>
      var k := s.lookups[l];
      s.(lookups := s.lookups[l := k.(rows := Some(Joined(RowsOf(s.table, k.sid), session)))])
    case Populating(l) => Populate(s, l)
    case LookupFailed(l) => s.(lookups := s.lookups - {l})
    case Writing(w, sid, isSet, mappings) =>
      Invalidate(s, sid).(writers := s.writers[w := Writer(sid, isSet, false, mappings)])
    case Executing(w) => Execute(s, w)
    case Returning(w) => Leave(Invalidate(s, s.writers[w].sid), w)
    case ClearThrew(w) => Leave(s, w)
    case OutOfBand(sid, rows) => s.(table := s.table[sid := rows])
    case Ticking(now) => s.(now := now)
  }

  /** A run of the process, from an empty cache and whatever the table holds. */
  ghost predicate IsRun(run: seq<State>, events: seq<Event>) {
    && |run| == |events| + 1
    && run[0].cache == map[] && run[0].lookups == map[] && run[0].writers == map[]
    && forall i :: 0 <= i < |events| ==> Enabled(run[i], events[i]) && run[i + 1] == Step(run[i], events[i])
  }

  // ----- Coherence

  ghost predicate DirtiedBy(s: State, w: WriterId, sid: SessionId) {
    w in s.writers && s.writers[w].sid == sid && s.writers[w].deleted
  }

  /** A writer of the session has changed its rows and not invalidated since. */
  ghost predicate Dirty(s: State, sid: SessionId) {
    exists w :: DirtiedBy(s, w, sid)
  }

  ghost predicate Coherent(s: State, sid: SessionId) {
    sid in s.cache && !Dirty(s, sid) ==> Ports(s.cache[sid].targets) == RowsOf(s.table, sid)
  }

  /** The rows a lookup would cache now are the table's. */
  ghost predicate Current(s: State, l: LookupId)
    requires l in s.lookups
  {
    var k := s.lookups[l];
    && k.epochAtRead <= s.epoch
    && (k.rows.Some? && k.rows.value != map[] && k.epochAtRead == s.epoch && !Dirty(s, k.sid) ==>
      Ports(k.rows.value) == RowsOf(s.table, k.sid))
  }

  ghost predicate Inv(s: State, sid: SessionId) {
    && Coherent(s, sid)
    && forall l :: l in s.lookups && s.lookups[l].sid == sid ==> Current(s, l)
  }

  /** The two ways the rows of a session change without an invalidation after it. */
  predicate Unannounced(s: State, e: Event, sid: SessionId) {
    || (e.OutOfBand? && e.sid == sid)
    || (e.ClearThrew? && e.w in s.writers && s.writers[e.w].sid == sid && s.writers[e.w].deleted)
  }

  /** Only an announced end makes a session clean, and a step that changes its rows leaves it dirty. */
  lemma DirtyStep(s: State, e: Event, sid: SessionId)
    requires Enabled(s, e) && !Unannounced(s, e, sid)
    ensures (Step(s, e).epoch == s.epoch || sid in Step(s, e).cache) && Dirty(s, sid) ==> Dirty(Step(s, e), sid)
    ensures RowsOf(Step(s, e).table, sid) == RowsOf(s.table, sid) || Dirty(Step(s, e), sid)
  {
    var t := Step(s, e);
    if (t.epoch == s.epoch || sid in t.cache) && Dirty(s, sid) {
      var w :| DirtiedBy(s, w, sid);
      assert DirtiedBy(t, w, sid);
    }
    if e.Executing? && s.writers[e.w].sid == sid {
      assert DirtiedBy(t, e.w, sid);
    }
  }

  lemma StepKeepsCurrent(s: State, e: Event, sid: SessionId, l: LookupId)
    requires Enabled(s, e) && !Unannounced(s, e, sid)
    requires l in Step(s, e).lookups && Step(s, e).lookups[l].sid == sid
    requires l in s.lookups && s.lookups[l].sid == sid ==> Current(s, l)
    ensures Current(Step(s, e), l)
  {
    DirtyStep(s, e, sid);
    ReadIsJoined(s, sid);
    hide Dirty, Joined, Ports;
  }

  lemma StepKeepsCoherent(s: State, e: Event, sid: SessionId)
    requires Inv(s, sid) && Enabled(s, e) && !Unannounced(s, e, sid)
    ensures Coherent(Step(s, e), sid)
  {
    DirtyStep(s, e, sid);
    hide Dirty, Joined, Ports;
    if e.Populating? {
      assert s.lookups[e.l].sid == sid ==> Current(s, e.l);
    }
  }

  lemma StepKeepsInv(s: State, e: Event, sid: SessionId)
    requires Inv(s, sid) && Enabled(s, e) && !Unannounced(s, e, sid)
    ensures Inv(Step(s, e), sid)
  {
    var t := Step(s, e);
    StepKeepsCoherent(s, e, sid);
    forall l | l in t.lookups && t.lookups[l].sid == sid ensures Current(t, l) {
      StepKeepsCurrent(s, e, sid, l);
    }
    hide Dirty, Joined, Ports, Step, Coherent, Current;
  }

  /** The ports of a query's rows are the table's, unless the session was not running. */
  lemma ReadIsJoined(s: State, sid: SessionId)
    ensures forall session ::
      Joined(RowsOf(s.table, sid), session) == map[] || Ports(Joined(RowsOf(s.table, sid), session)) == RowsOf(s.table, sid)
  {
  }

  // ----- Every run

  /** While a session's rows change only through writers that invalidate, its entry equals the table. */
  lemma {:induction false} CacheIsCoherent(run: seq<State>, events: seq<Event>, sid: SessionId, n: nat)
    requires IsRun(run, events) && n < |run|
    requires forall i :: 0 <= i < n ==> !Unannounced(run[i], events[i], sid)
    ensures Inv(run[n], sid)
    ensures sid in run[n].cache && !Dirty(run[n], sid) ==> Ports(run[n].cache[sid].targets) == RowsOf(run[n].table, sid)
    decreases n
  {
    if n > 0 {
      CacheIsCoherent(run, events, sid, n - 1);
      StepKeepsInv(run[n - 1], events[n - 1], sid);
    }
  }

  /** Between writers nothing is dirty, so an entry then equals the table. */
  lemma CoherentBetweenWriters(run: seq<State>, events: seq<Event>, sid: SessionId, n: nat)
    requires IsRun(run, events) && n < |run|
    requires forall i :: 0 <= i < n ==> !Unannounced(run[i], events[i], sid)
    requires forall w :: w in run[n].writers ==> run[n].writers[w].sid != sid
    ensures !Dirty(run[n], sid)
    ensures sid in run[n].cache ==> Ports(run[n].cache[sid].targets) == RowsOf(run[n].table, sid)
  {
    CacheIsCoherent(run, events, sid, n);
  }

  // ----- The time limit, in all runs

  /** Step `m` read those targets for the session. */
  ghost predicate ReadAt(run: seq<State>, events: seq<Event>, m: nat, sid: SessionId, targets: map<Port, Target>)
    requires IsRun(run, events)
  {
    && m < |events| && events[m].Reading?
    && run[m].lookups[events[m].l].sid == sid
    && targets == Joined(RowsOf(run[m].table, sid), events[m].session)
  }

  lemma ClockStep(s: State, e: Event)
    requires Enabled(s, e)
    ensures s.now <= Step(s, e).now
  {
    hide Joined;
  }

  lemma {:induction false} ClockRuns(run: seq<State>, events: seq<Event>, m: nat, n: nat)
    requires IsRun(run, events) && m <= n < |run|
    ensures run[m].now <= run[n].now
    decreases n
  {
    hide Step;
    if m < n {
      ClockRuns(run, events, m, n - 1);
      ClockStep(run[n - 1], events[n - 1]);
    }
  }

  /** Where the rows of a lookup come from. */
  lemma LookupStep(s: State, e: Event, l: LookupId)
    requires Enabled(s, e) && l in Step(s, e).lookups
    ensures var k := Step(s, e).lookups[l];
      || (e.Looking? && e.l == l && l !in s.lookups && k.started == s.now && k.rows.None?)
      || (e.Reading? && e.l == l && l in s.lookups && k.sid == s.lookups[l].sid && k.started == s.lookups[l].started
          && k.rows == Some(Joined(RowsOf(s.table, k.sid), e.session)))
      || (l in s.lookups && k == s.lookups[l])
  {
    hide Joined;
  }

  /** Where an entry comes from. */
  lemma EntryStep(s: State, e: Event, sid: SessionId)
    requires Enabled(s, e) && sid in Step(s, e).cache
    ensures var x := Step(s, e).cache[sid];
      || (e.Populating? && s.lookups[e.l].sid == sid && x == Entry(s.lookups[e.l].rows.value, s.lookups[e.l].started + CACHE_TTL_MS))
      || (sid in s.cache && x == s.cache[sid])
  {
    hide Joined;
  }

  lemma {:induction false} LookupStarted(run: seq<State>, events: seq<Event>, n: nat, l: LookupId)
    requires IsRun(run, events) && n < |run| && l in run[n].lookups
    ensures run[n].lookups[l].started <= run[n].now
    decreases n
  {
    hide Step, Joined;
    if n > 0 {
      LookupStep(run[n - 1], events[n - 1], l);
      ClockStep(run[n - 1], events[n - 1]);
      if l in run[n - 1].lookups {
        LookupStarted(run, events, n - 1, l);
      }
    }
  }

  lemma {:induction false} LookupRead(run: seq<State>, events: seq<Event>, n: nat, l: LookupId) returns (m: nat)
    requires IsRun(run, events) && n < |run| && l in run[n].lookups && run[n].lookups[l].rows.Some?
    ensures m < n && ReadAt(run, events, m, run[n].lookups[l].sid, run[n].lookups[l].rows.value)
    ensures run[n].lookups[l].started <= run[m].now
    decreases n
  {
    hide Joined, Step;
    assert n > 0;
    LookupStep(run[n - 1], events[n - 1], l);
    LookupStarted(run, events, n - 1, l);
    if events[n - 1].Reading? && events[n - 1].l == l {
      m := n - 1;
    } else {
      m := LookupRead(run, events, n - 1, l);
    }
  }

  lemma {:induction false} EntryRead(run: seq<State>, events: seq<Event>, n: nat, sid: SessionId) returns (m: nat)
    requires IsRun(run, events) && n < |run| && sid in run[n].cache
    ensures m < n && ReadAt(run, events, m, sid, run[n].cache[sid].targets)
    ensures run[n].cache[sid].expiresAt <= run[m].now + CACHE_TTL_MS
    decreases n
  {
    hide Joined, Step;
    assert n > 0;
    EntryStep(run[n - 1], events[n - 1], sid);
    if sid in run[n - 1].cache && run[n].cache[sid] == run[n - 1].cache[sid] {
      m := EntryRead(run, events, n - 1, sid);
    } else {
      m := LookupRead(run, events, n - 1, events[n - 1].l);
    }
  }

  /**
   What a lookup is served from the cache was read from the table less than 30 000 ms before, in every run:
   after clears that threw and changes behind the cache's back as well.
   */
  lemma ServedDataIsFresh(run: seq<State>, events: seq<Event>, n: nat, sid: SessionId) returns (m: nat)
    requires IsRun(run, events) && n < |run| && Hit(run[n], sid)
    ensures m < n && ReadAt(run, events, m, sid, run[n].cache[sid].targets)
    ensures 0 <= run[n].now - run[m].now < 30_000
  {
    m := EntryRead(run, events, n, sid);
    ClockRuns(run, events, m, n);
  }

  /**
   And what it is: the ports the session had rows for, each with its flag of then, under the container name and the owner
   of the session row the query joined.
   */
  lemma ServedDataIsJoined(run: seq<State>, events: seq<Event>, n: nat, sid: SessionId) returns (m: nat)
    requires IsRun(run, events) && n < |run| && Hit(run[n], sid)
    ensures m < n && events[m].Reading? && run[m].lookups[events[m].l].sid == sid && events[m].session.Some?
    ensures 0 <= run[n].now - run[m].now < 30_000
    ensures var rows, targets, row := RowsOf(run[m].table, sid), run[n].cache[sid].targets, events[m].session.value;
      && targets.Keys == rows.Keys
      && forall p :: p in targets ==>
        targets[p].isPublic == rows[p] && targets[p].containerName == row.containerName && targets[p].owner == row.owner
  {
    m := ServedDataIsFresh(run, events, n, sid);
    EntriesAreNotEmpty(run, events, sid, n);
    hide IsRun, Step, Enabled;
  }

  /** While no change is unannounced and none under way, a hit opens exactly the ports of the table, each as the table has it. */
  lemma HitTellsTheTable(run: seq<State>, events: seq<Event>, n: nat, sid: SessionId, port: Port)
    requires IsRun(run, events) && n < |run| && Hit(run[n], sid) && !Dirty(run[n], sid)
    requires forall i :: 0 <= i < n ==> !Unannounced(run[i], events[i], sid)
    ensures port in run[n].cache[sid].targets <==> port in RowsOf(run[n].table, sid)
    ensures port in run[n].cache[sid].targets ==> run[n].cache[sid].targets[port].isPublic == RowsOf(run[n].table, sid)[port]
  {
    CacheIsCoherent(run, events, sid, n);
    var targets := run[n].cache[sid].targets;
    assert port in Ports(targets) <==> port in targets;
    hide IsRun, Inv;
  }

  /** Rows that come back at an unmoved epoch are served for 30 000 ms from the start of their lookup, and no others are. */
  lemma CachedExactly(s: State, l: LookupId, later: nat)
    requires Enabled(s, Populating(l)) && s.lookups[l].sid !in s.cache && s.now <= later
    ensures var k, t := s.lookups[l], Step(Step(s, Populating(l)), Ticking(later));
      && t.lookups == s.lookups - {l} && t.epoch == s.epoch && t.table == s.table
      && (forall x :: x != k.sid ==> (x in t.cache <==> x in s.cache) && (x in s.cache ==> t.cache[x] == s.cache[x]))
      && (Hit(t, k.sid) <==> k.rows.value != map[] && s.epoch == k.epochAtRead && later < k.started + 30_000)
      && (Hit(t, k.sid) ==> t.cache[k.sid].targets == k.rows.value)
  {
  }

  /** A lookup that is not answered from the cache drops the entry that is no longer in date, and no other. */
  lemma MissForgets(s: State, l: LookupId, sid: SessionId)
    requires Enabled(s, Looking(l, sid))
    ensures var t := Step(s, Looking(l, sid));
      && (l in t.lookups <==> !Hit(s, sid)) && (Hit(s, sid) ==> t == s)
      && (!Hit(s, sid) ==> sid !in t.cache && t.lookups[l] == Lookup(sid, s.now, s.epoch, None))
      && (forall x :: x != sid ==> (x in t.cache <==> x in s.cache) && (x in s.cache ==> t.cache[x] == s.cache[x]))
  {
  }

  /** The statements of a writer: the DELETE empties the session's rows, an INSERT adds one mapping; other sessions keep theirs. */
  lemma WriterExecutes(s: State, w: WriterId)
    requires Enabled(s, Executing(w))
    ensures var x, t := s.writers[w], Step(s, Executing(w));
      && (!x.deleted ==> RowsOf(t.table, x.sid) == map[] && t.writers[w] == x.(deleted := true))
      && (x.deleted ==>
        && RowsOf(t.table, x.sid) == RowsOf(s.table, x.sid)[x.todo[0].port := x.todo[0].isPublic]
        && t.writers[w] == x.(todo := x.todo[1..]))
      && (forall sid :: sid != x.sid ==> RowsOf(t.table, sid) == RowsOf(s.table, sid))
      && t.cache == s.cache && t.epoch == s.epoch
  {
  }

  // ----- Where coherence ends

  /** The lookup holds rows it would cache if it finished now. */
  predicate WouldCache(s: State, l: LookupId)
    requires l in s.lookups
  {
    s.lookups[l].rows.Some? && s.lookups[l].rows.value != map[] && s.lookups[l].epochAtRead == s.epoch
  }

  /**
   A clear whose DELETE took effect and that throws, when no other writer of the session has rows to announce: the cache
   stays coherent exactly when its entry, and all rows a lookup in flight would still cache, are what the table now holds.
   */
  lemma ThrownClearIsHarmless(s: State, w: WriterId, sid: SessionId)
    requires Inv(s, sid) && Enabled(s, ClearThrew(w)) && DirtiedBy(s, w, sid)
    requires forall x :: DirtiedBy(s, x, sid) ==> x == w
    ensures var rows := RowsOf(s.table, sid);
      Inv(Step(s, ClearThrew(w)), sid) <==>
        && (sid in s.cache ==> Ports(s.cache[sid].targets) == rows)
        && (forall l :: l in s.lookups && s.lookups[l].sid == sid && WouldCache(s, l) ==> Ports(s.lookups[l].rows.value) == rows)
  {
    hide Ports;
    var t := Step(s, ClearThrew(w));
    forall x ensures !DirtiedBy(t, x, sid) {
      assert DirtiedBy(t, x, sid) ==> DirtiedBy(s, x, sid);
    }
    forall l | l in s.lookups && s.lookups[l].sid == sid
      ensures Current(t, l) <==> (WouldCache(s, l) ==> Ports(s.lookups[l].rows.value) == RowsOf(s.table, sid))
    {
      assert Current(s, l);
    }
  }

  /**
   With nothing inserted since the DELETE, and no empty entry cached: exactly when the session has no entry, and no
   lookup in flight that read rows since the last invalidation of anything.
   */
  lemma ThrownClearIsHarmlessExactly(s: State, w: WriterId, sid: SessionId)
    requires Inv(s, sid) && Enabled(s, ClearThrew(w)) && DirtiedBy(s, w, sid)
    requires forall x :: DirtiedBy(s, x, sid) ==> x == w
    requires RowsOf(s.table, sid) == map[] && (sid in s.cache ==> s.cache[sid].targets != map[])
    ensures Inv(Step(s, ClearThrew(w)), sid) <==>
      && sid !in s.cache
      && (forall l :: l in s.lookups && s.lookups[l].sid == sid && s.lookups[l].rows.Some? && s.lookups[l].rows.value != map[] ==>
        s.lookups[l].epochAtRead < s.epoch)
  {
    hide Ports;
    ThrownClearIsHarmless(s, w, sid);
    if sid in s.cache {
      NoPorts(s.cache[sid].targets);
    }
    forall l | l in s.lookups && s.lookups[l].sid == sid && s.lookups[l].rows.Some? && s.lookups[l].rows.value != map[]
      ensures s.lookups[l].epochAtRead <= s.epoch && Ports(s.lookups[l].rows.value) != map[]
    {
      assert Current(s, l);
      NoPorts(s.lookups[l].rows.value);
    }
  }

  lemma NoPorts(targets: map<Port, Target>)
    requires targets != map[]
    ensures Ports(targets) != map[]
  {
    var p :| p in targets;
    assert p in Ports(targets);
  }

  /** Where the invariant is lost, the cache is incoherent at once or when some lookup in flight finishes; where it is kept, never. */
  lemma LostInvariantShows(s: State, sid: SessionId)
    requires !Dirty(s, sid)
    requires forall l :: l in s.lookups && s.lookups[l].sid == sid ==> s.lookups[l].epochAtRead <= s.epoch
    ensures !Inv(s, sid) <==>
      || !Coherent(s, sid)
      || exists l :: l in s.lookups && s.lookups[l].sid == sid && s.lookups[l].rows.Some? && !Coherent(Step(s, Populating(l)), sid)
  {
    hide Ports;
    forall l | l in s.lookups && s.lookups[l].sid == sid && s.lookups[l].rows.Some?
      ensures Coherent(s, sid) ==> (Coherent(Step(s, Populating(l)), sid) <==> Current(s, l))
    {
      var t := Step(s, Populating(l));
      assert forall x :: DirtiedBy(t, x, sid) ==> DirtiedBy(s, x, sid);
    }
    if l :| l in s.lookups && s.lookups[l].sid == sid && !Current(s, l) {
      assert s.lookups[l].rows.Some?;
    }
  }

  /** SQL behind the cache's back keeps it coherent exactly when it writes what is cached and what is about to be. */
  lemma OutOfBandIsHarmless(s: State, sid: SessionId, rows: Rows)
    requires Inv(s, sid) && !Dirty(s, sid)
    ensures Inv(Step(s, OutOfBand(sid, rows)), sid) <==>
      && (sid in s.cache ==> Ports(s.cache[sid].targets) == rows)
      && (forall l :: l in s.lookups && s.lookups[l].sid == sid && WouldCache(s, l) ==> Ports(s.lookups[l].rows.value) == rows)
  {
    hide Ports;
    var t := Step(s, OutOfBand(sid, rows));
    assert forall x :: DirtiedBy(t, x, sid) ==> DirtiedBy(s, x, sid);
    forall l | l in s.lookups && s.lookups[l].sid == sid
      ensures Current(t, l) <==> (WouldCache(s, l) ==> Ports(s.lookups[l].rows.value) == rows)
    {
      assert Current(s, l);
    }
  }

  /** Only non-empty answers are cached, in every run. */
  lemma {:induction false} EntriesAreNotEmpty(run: seq<State>, events: seq<Event>, sid: SessionId, n: nat)
    requires IsRun(run, events) && n < |run|
    ensures sid in run[n].cache ==> run[n].cache[sid].targets != map[]
    decreases n
  {
    hide Step, Enabled;
    if n > 0 && sid in run[n].cache {
      EntriesAreNotEmpty(run, events, sid, n - 1);
      NewEntryIsNotEmpty(run[n - 1], events[n - 1], sid);
    }
  }

  lemma NewEntryIsNotEmpty(s: State, e: Event, sid: SessionId)
    requires Enabled(s, e) && sid in Step(s, e).cache && (sid in s.cache ==> s.cache[sid].targets != map[])
    ensures Step(s, e).cache[sid].targets != map[]
  {
    hide Joined;
  }

  /** A clear starts; a lookup reads the rows; the DELETE takes effect. */
  function Overtaken(s: State, sid: SessionId, l: LookupId, w: WriterId, row: SessionRow): State
    requires l !in s.lookups && w !in s.writers && RowsOf(s.table, sid) != map[]
  {
    var s1 := Step(s, Writing(w, sid, false, []));
    var s2 := Step(s1, Looking(l, sid));
    var s3 := Step(s2, Reading(l, Some(row)));
    Step(s3, Executing(w))
  }

  /** It reports an error nevertheless, and the lookup finishes. */
  function ThrownClear(s: State, sid: SessionId, l: LookupId, w: WriterId, row: SessionRow): State
    requires l !in s.lookups && w !in s.writers && RowsOf(s.table, sid) != map[]
  {
    Step(Step(Overtaken(s, sid, l, w, row), ClearThrew(w)), Populating(l))
  }

  lemma OvertakenIs(s: State, sid: SessionId, l: LookupId, w: WriterId, row: SessionRow)
    requires l !in s.lookups && w !in s.writers && RowsOf(s.table, sid) != map[]
    ensures var joined := Joined(RowsOf(s.table, sid), Some(row));
      && joined != map[] && Ports(joined) == RowsOf(s.table, sid)
      && Overtaken(s, sid, l, w, row) ==
        s.(table := s.table[sid := map[]], cache := s.cache - {sid}, epoch := s.epoch + 1,
           lookups := s.lookups[l := Lookup(sid, s.now, s.epoch + 1, Some(joined))],
           writers := s.writers[w := Writer(sid, false, true, [])])
  {
    JoinedPorts(RowsOf(s.table, sid), row);
    var joined := Joined(RowsOf(s.table, sid), Some(row));
    hide Joined, Ports;
    var s3 := s.(cache := s.cache - {sid}, epoch := s.epoch + 1,
                 lookups := s.lookups[l := Lookup(sid, s.now, s.epoch + 1, Some(joined))],
                 writers := s.writers[w := Writer(sid, false, false, [])]);
    LookedDuringClear(s, sid, l, w, row, s3);
    assert s.writers[w := Writer(sid, false, false, [])][w := Writer(sid, false, true, [])] == s.writers[w := Writer(sid, false, true, [])];
  }

  /** Such a clear fails the exact condition: the lookup read since the last invalidation. */
  lemma OvertakenClearIsHarmful(s: State, sid: SessionId, l: LookupId, w: WriterId, row: SessionRow)
    requires l !in s.lookups && w !in s.writers && RowsOf(s.table, sid) != map[] && Inv(s, sid) && !Dirty(s, sid)
    ensures Enabled(Overtaken(s, sid, l, w, row), ClearThrew(w))
    ensures Inv(Overtaken(s, sid, l, w, row), sid) && !Inv(Step(Overtaken(s, sid, l, w, row), ClearThrew(w)), sid)
  {
    hide Joined, Ports, Inv;
    var s1 := Step(s, Writing(w, sid, false, []));
    var s2 := Step(s1, Looking(l, sid));
    var s3 := Step(s2, Reading(l, Some(row)));
    StepKeepsInv(s, Writing(w, sid, false, []), sid);
    StepKeepsInv(s1, Looking(l, sid), sid);
    StepKeepsInv(s2, Reading(l, Some(row)), sid);
    StepKeepsInv(s3, Executing(w), sid);
    OvertakenIs(s, sid, l, w, row);
    var t := Overtaken(s, sid, l, w, row);
    forall x | DirtiedBy(t, x, sid) ensures x == w {
      assert x != w ==> DirtiedBy(s, x, sid);
    }
    assert DirtiedBy(t, w, sid);
    assert l in t.lookups && t.lookups[l].sid == sid && t.lookups[l].rows.Some? && t.lookups[l].rows.value != map[];
    assert t.lookups[l].epochAtRead == t.epoch;
    ThrownClearIsHarmlessExactly(t, w, sid);
  }

  /**
   The harm, from any state, whatever rows the session has: such a clear ends with no writer left, an empty table and
   the deleted ports served from the cache for as long as the time limit lasts.
   */
  lemma ThrownClearLeavesStalePorts(s: State, sid: SessionId, l: LookupId, w: WriterId, row: SessionRow)
    requires l !in s.lookups && w !in s.writers && RowsOf(s.table, sid) != map[]
    ensures var t := ThrownClear(s, sid, l, w, row);
      && t.writers == s.writers && RowsOf(t.table, sid) == map[]
      && Hit(t, sid) && t.cache[sid].expiresAt == t.now + CACHE_TTL_MS
      && Ports(t.cache[sid].targets) == RowsOf(s.table, sid) != RowsOf(t.table, sid)
  {
    OvertakenIs(s, sid, l, w, row);
    hide Joined, Ports, Overtaken;
    var t := Step(Overtaken(s, sid, l, w, row), ClearThrew(w));
    assert t.writers == s.writers;
  }

  lemma LookedDuringClear(s: State, sid: SessionId, l: LookupId, w: WriterId, row: SessionRow, s3: State)
    requires l !in s.lookups && w !in s.writers
    requires s3 == s.(cache := s.cache - {sid}, epoch := s.epoch + 1,
                      lookups := s.lookups[l := Lookup(sid, s.now, s.epoch + 1, Some(Joined(RowsOf(s.table, sid), Some(row))))],
                      writers := s.writers[w := Writer(sid, false, false, [])])
    ensures var s1 := Step(s, Writing(w, sid, false, []));
      Step(Step(s1, Looking(l, sid)), Reading(l, Some(row))) == s3
  {
    hide Joined;
    var s1 := Step(s, Writing(w, sid, false, []));
    var s2 := Step(s1, Looking(l, sid));
    assert s2.cache == s.cache - {sid};
  }

  lemma JoinedPorts(rows: Rows, row: SessionRow)
    requires rows != map[]
    ensures Joined(rows, Some(row)) != map[] && Ports(Joined(rows, Some(row))) == rows
  {
    var p :| p in rows;
    assert p in Joined(rows, Some(row));
  }

  // ----- The code

  /** The rows after those INSERTs. */
  function Inserted(rows: Rows, mappings: seq<Mapping>): Rows {
    if mappings == [] then rows
    else
      var m := mappings[|mappings| - 1];
      Inserted(rows, mappings[..|mappings| - 1])[m.port := m.isPublic]
  }

  datatype ResultRow = ResultRow(port: Port, target: Target)

  function ByPort(rows: seq<ResultRow>): map<Port, Target> {
    if rows == [] then map[]
    else ByPort(rows[..|rows| - 1])[rows[|rows| - 1].port := rows[|rows| - 1].target]
  }

  class PortMappings {
    var table: map<SessionId, Rows>
    var cache: map<SessionId, Entry>
    var writeEpoch: nat
    var lookups: map<LookupId, Lookup>
    var writers: map<WriterId, Writer>
    var now: nat

    ghost function View(): State
      reads this
    {
      State(table, cache, writeEpoch, lookups, writers, now)
    }

    constructor (table: map<SessionId, Rows>, now: nat)
      ensures View() == State(table, map[], 0, map[], map[], now)
    {
      this.table, this.now := table, now;
      cache, writeEpoch, lookups, writers := map[], 0, map[], map[];
    }

    method InvalidateCache(sid: SessionId)
      modifies this`cache, this`writeEpoch
      ensures View() == Invalidate(old(View()), sid)
    {
      cache := cache - {sid};
      writeEpoch := writeEpoch + 1;
    }

    /** The part of lookupDispatchTarget before its query; `answer` is set when the cache has one. */
    method LookUp(l: LookupId, sid: SessionId, port: Port) returns (answer: Option<Option<Target>>)
      requires l !in lookups
      modifies this
      ensures View() == Look(old(View()), l, sid)
      ensures answer.Some? <==> Hit(old(View()), sid)
      ensures answer.Some? ==> (answer.value.Some? <==> port in old(cache[sid].targets))
      ensures answer.Some? && answer.value.Some? ==> answer.value.value == old(cache[sid].targets[port])
    {
      if sid in cache {
        if cache[sid].expiresAt > now {
          return Some(Find(cache[sid].targets, port));
        }
        cache := cache - {sid};
      }
      lookups := lookups[l := Lookup(sid, now, writeEpoch, None)];
      answer := None;
    }

    /** The part after it. The caller is answered from the rows even when they are not cached. */
    method RowsArrived(l: LookupId, port: Port, rows: seq<ResultRow>) returns (answer: Option<Target>)
      requires l in lookups && lookups[l].rows == Some(ByPort(rows))
      modifies this
      ensures View() == Populate(old(View()), l)
      ensures answer.Some? <==> exists i :: 0 <= i < |rows| && rows[i].port == port
      ensures answer.Some? ==> exists i :: 0 <= i < |rows| && rows[i] == ResultRow(port, answer.value) && !Has(rows[i + 1..], port)
    {
      ByPortIs(rows, port);
      var k := lookups[l];
      lookups := lookups - {l};
      ByPortEmpty(rows);
      if |rows| == 0 {
        return None;
      }
      var byPort: map<Port, Target> := map[];
      for i := 0 to |rows|
        invariant byPort == ByPort(rows[..i])
      {
        assert rows[..i + 1][..i] == rows[..i];
        byPort := byPort[rows[i].port := rows[i].target];
      }
      assert rows[..|rows|] == rows;
      if writeEpoch == k.epochAtRead {
        cache := cache[k.sid := Entry(byPort, k.started + CACHE_TTL_MS)];
      }
      answer := Find(byPort, port);
    }

    /** An await of the writer: unless `calm`, anything else happens that does not change the session's rows unannounced. */
    method Others(w: WriterId, sid: SessionId, calm: bool)
      requires Inv(View(), sid) && w in writers
      modifies this
      ensures Inv(View(), sid) && w in writers && writers[w] == old(writers[w]) && writeEpoch >= old(writeEpoch)
      ensures calm ==> View() == old(View())
    {
      hide Inv, Enabled, Step, Unannounced;
      var events: seq<Event> := *;
      if calm {
        return;
      }
      for k := 0 to |events|
        invariant Inv(View(), sid) && w in writers && writers[w] == old(writers[w]) && writeEpoch >= old(writeEpoch)
      {
        var e, s := events[k], State(table, cache, writeEpoch, lookups, writers, now);
        if Enabled(s, e) && !Unannounced(s, e, sid) && !About(e, w) {
          StepKeepsInv(s, e, sid);
          OthersLeaveWriter(s, e, w);
          var t := Step(s, e);
          table, cache, writeEpoch, lookups, writers, now := t.table, t.cache, t.epoch, t.lookups, t.writers, t.now;
        }
      }
    }

    /**
     setPortMappings, with lookups and other writers at every await: `mayContinue` or any statement can stop it.
     Wherever it stops, the session's entry is gone from the cache and what is cached from then on is the table's.
     A statement that fails may have taken effect. Undisturbed, the rows are the old ones or the first few of the new ones,
     and no other session's change; with a `sound` D1 as well it succeeds exactly when no port is given twice.
     */
    method SetPortMappings(w: WriterId, sid: SessionId, mappings: seq<Mapping>, calm: bool, sound: bool) returns (ok: bool)
      requires Inv(View(), sid) && w !in writers
      modifies this
      ensures Inv(View(), sid) && sid !in cache && w !in writers && writeEpoch >= old(writeEpoch) + 2
      ensures calm ==> writeEpoch == old(writeEpoch) + 2 && Rewritten(old(table), table, sid, mappings, ok)
      ensures calm && sound ==> (ok <==> PortsDiffer(mappings))
    {
      hide Inv;
      Announce(w, sid, true, mappings);
      ok := Rewrite(w, sid, mappings, calm, sound);
      Conclude(w, sid);
    }

    /** The first invalidation of a writer. */
    method Announce(w: WriterId, sid: SessionId, isSet: bool, mappings: seq<Mapping>)
      requires Inv(View(), sid) && w !in writers && (isSet || mappings == [])
      modifies this`cache, this`writeEpoch, this`writers
      ensures Inv(View(), sid) && View() == Step(old(View()), Writing(w, sid, isSet, mappings))
    {
      hide Inv;
      StepKeepsInv(View(), Writing(w, sid, isSet, mappings), sid);
      InvalidateCache(sid);
      writers := writers[w := Writer(sid, isSet, false, mappings)];
    }

    /** The last one. */
    method Conclude(w: WriterId, sid: SessionId)
      requires Inv(View(), sid) && w in writers && writers[w].sid == sid && (writers[w].isSet || writers[w].deleted)
      modifies this`cache, this`writeEpoch, this`writers
      ensures Inv(View(), sid) && View() == Step(old(View()), Returning(w))
    {
      hide Inv;
      StepKeepsInv(View(), Returning(w), sid);
      InvalidateCache(sid);
      writers := writers - {w};
    }

    /** The DELETE. */
    method DeleteRows(w: WriterId, sid: SessionId)
      requires Inv(View(), sid) && w in writers && writers[w].sid == sid && !writers[w].deleted
      modifies this`table, this`writers
      ensures Inv(View(), sid) && View() == Step(old(View()), Executing(w))
      ensures RowsOf(table, sid) == map[] && table == old(table)[sid := map[]]
      ensures writers == old(writers)[w := old(writers[w]).(deleted := true)] && writeEpoch == old(writeEpoch)
    {
      hide Inv;
      StepKeepsInv(View(), Executing(w), sid);
      table, writers := table[sid := map[]], writers[w := writers[w].(deleted := true)];
    }

    /** A clear passes an error on. */
    method Throw(w: WriterId, sid: SessionId)
      requires w in writers && writers[w].sid == sid && !writers[w].isSet
      modifies this`writers
      ensures View() == Step(old(View()), ClearThrew(w))
      ensures old(Inv(View(), sid)) && !old(writers[w]).deleted ==> Inv(View(), sid)
    {
      hide Inv;
      if Inv(View(), sid) && !writers[w].deleted {
        StepKeepsInv(View(), ClearThrew(w), sid);
      }
      writers := writers - {w};
    }

    /** The DELETE and the INSERTs; an error may be reported before or after a statement took effect. */
    method Rewrite(w: WriterId, sid: SessionId, mappings: seq<Mapping>, calm: bool, sound: bool) returns (ok: bool)
      requires Inv(View(), sid) && w in writers && writers[w] == Writer(sid, true, false, mappings)
      modifies this
      ensures Inv(View(), sid) && w in writers && writers[w].sid == sid && writers[w].isSet && writeEpoch >= old(writeEpoch)
      ensures calm ==> writeEpoch == old(writeEpoch) && Rewritten(old(table), table, sid, mappings, ok)
      ensures calm && sound ==> (ok <==> PortsDiffer(mappings))
    {
      hide Inv, Inserted, PortsDiffer, Step, Enabled;
      ok := false;
      Others(w, sid, calm);
      InsertedNone(mappings);
      assert PortsDiffer(mappings[..0]) by { NoPortsAlike(mappings); }
      var failed, effect: bool := *, *;
      failed := failed && !sound;
      if !failed || effect {
        DeleteRows(w, sid);
      }
      if failed {
        return;
      }
      ghost var k := 0;
      while writers[w].todo != []
        invariant Inv(View(), sid) && w in writers && writeEpoch >= old(writeEpoch)
        invariant k <= |mappings| && writers[w] == Writer(sid, true, true, mappings[k..])
        invariant calm ==> writeEpoch == old(writeEpoch) && RowsOf(table, sid) == Inserted(map[], mappings[..k])
        invariant calm ==> forall x :: x != sid ==> RowsOf(table, x) == old(RowsOf(table, x))
        invariant calm ==> PortsDiffer(mappings[..k])
        decreases |mappings| - k
      {
        Others(w, sid, calm);
        failed, effect := *, *;
        failed := failed && !sound;
        var m := writers[w].todo[0];
        if calm {
          PortsDifferSoFar(mappings, k);
        }
        if m.port in RowsOf(table, sid) {
          return;
        }
        InsertedNext(mappings, k);
        if !failed || effect {
          InsertRow(w, sid, m);
        }
        if failed {
          return;
        }
        k := k + 1;
      }
      assert mappings[..k] == mappings;
      failed := *;
      ok := sound || !failed;
    }

    /** INSERT of the next mapping, whose port has no row yet. */
    method InsertRow(w: WriterId, sid: SessionId, m: Mapping)
      requires Inv(View(), sid) && w in writers && writers[w].sid == sid && writers[w].deleted
      requires writers[w].todo != [] && writers[w].todo[0] == m && m.port !in RowsOf(table, sid)
      modifies this`table, this`writers
      ensures Inv(View(), sid) && View() == Step(old(View()), Executing(w))
      ensures RowsOf(table, sid) == old(RowsOf(table, sid))[m.port := m.isPublic]
      ensures forall x :: x != sid ==> RowsOf(table, x) == old(RowsOf(table, x))
      ensures writers == old(writers)[w := old(writers[w]).(todo := old(writers[w]).todo[1..])]
    {
      hide Inv;
      StepKeepsInv(View(), Executing(w), sid);
      table := table[sid := RowsOf(table, sid)[m.port := m.isPublic]];
      writers := writers[w := writers[w].(todo := writers[w].todo[1..])];
    }

    /**
     clearPortMappings, likewise: an error of the DELETE, which may have taken effect, is passed on without a second
     invalidation. Coherence survives a success, and an error without effect; ThrownClearIsHarmless says when it
     survives the rest.
     */
    method ClearPortMappings(w: WriterId, sid: SessionId, calm: bool, sound: bool) returns (ok: bool, took: bool)
      requires Inv(View(), sid) && w !in writers
      modifies this
      ensures w !in writers && (ok ==> took && sid !in cache) && (sound ==> ok)
      ensures ok || !took ==> Inv(View(), sid)
      ensures calm ==> sid !in cache && writeEpoch == old(writeEpoch) + (if ok then 2 else 1)
      ensures calm ==> table == if took then old(table)[sid := map[]] else old(table)
    {
      hide Inv;
      Announce(w, sid, false, []);
      Others(w, sid, calm);
      took := *;
      took := took || sound;
      if took {
        DeleteRows(w, sid);
      }
      var reported: bool := *;
      ok := took && (reported || sound);
      if ok {
        Conclude(w, sid);
      } else {
        Throw(w, sid);
      }
    }
  }

  predicate About(e: Event, w: WriterId) {
    (e.Writing? || e.Executing? || e.Returning? || e.ClearThrew?) && e.w == w
  }

  lemma OthersLeaveWriter(s: State, e: Event, w: WriterId)
    requires Enabled(s, e) && w in s.writers && !About(e, w)
    ensures w in Step(s, e).writers && Step(s, e).writers[w] == s.writers[w]
    ensures Step(s, e).epoch >= s.epoch
  {
    hide Joined;
  }

  /** Replaced, partly replaced, or untouched, and nobody else's rows. */
  ghost predicate Rewritten(before: map<SessionId, Rows>, after: map<SessionId, Rows>, sid: SessionId, mappings: seq<Mapping>, ok: bool) {
    && (forall x :: x != sid ==> RowsOf(after, x) == RowsOf(before, x))
    && (ok ==> RowsOf(after, sid) == Inserted(map[], mappings))
    && (RowsOf(after, sid) == RowsOf(before, sid)
      || exists k :: 0 <= k <= |mappings| && RowsOf(after, sid) == Inserted(map[], mappings[..k]))
  }

  lemma InsertedNone(mappings: seq<Mapping>)
    ensures Inserted(map[], mappings[..0]) == map[]
  {
  }

  lemma InsertedNext(mappings: seq<Mapping>, k: nat)
    requires k < |mappings|
    ensures mappings[k..][1..] == mappings[k + 1..]
    ensures Inserted(map[], mappings[..k + 1]) == Inserted(map[], mappings[..k])[mappings[k].port := mappings[k].isPublic]
  {
    assert mappings[..k + 1][..k] == mappings[..k];
  }

  function Find(targets: map<Port, Target>, port: Port): Option<Target> {
    if port in targets then Some(targets[port]) else None
  }

  predicate Has(rows: seq<ResultRow>, port: Port) {
    exists i :: 0 <= i < |rows| && rows[i].port == port
  }

  /** The last row of a port counts. */
  lemma {:induction false} ByPortIs(rows: seq<ResultRow>, port: Port)
    ensures port in ByPort(rows) <==> exists i :: 0 <= i < |rows| && rows[i].port == port
    ensures port in ByPort(rows) ==>
      exists i :: 0 <= i < |rows| && rows[i] == ResultRow(port, ByPort(rows)[port]) && !Has(rows[i + 1..], port)
  {
    if rows != [] {
      var n := |rows| - 1;
      ByPortIs(rows[..n], port);
      assert rows[n] in rows;
      if rows[n].port == port {
        assert rows[n] == ResultRow(port, ByPort(rows)[port]) && rows[n + 1..] == [];
      } else if port in ByPort(rows) {
        var i :| 0 <= i < n && rows[..n][i] == ResultRow(port, ByPort(rows)[port]) && !Has(rows[..n][i + 1..], port);
        var after := rows[i + 1..];
        forall k | 0 <= k < |after| ensures after[k].port != port {
          assert k < |after| - 1 ==> after[k] == rows[..n][i + 1..][k];
        }
        assert rows[i] == ResultRow(port, ByPort(rows)[port]);
      }
    }
  }

  predicate PortsDiffer(mappings: seq<Mapping>) {
    forall i, j :: 0 <= i < j < |mappings| ==> mappings[i].port != mappings[j].port
  }

  lemma NoPortsAlike(mappings: seq<Mapping>)
    ensures PortsDiffer(mappings[..0])
  {
  }

  /** The next mapping meets a row exactly when its port came before. */
  lemma PortsDifferSoFar(mappings: seq<Mapping>, k: nat)
    requires k < |mappings| && PortsDiffer(mappings[..k])
    ensures mappings[k].port in Inserted(map[], mappings[..k]) ==> !PortsDiffer(mappings)
    ensures mappings[k].port !in Inserted(map[], mappings[..k]) ==> PortsDiffer(mappings[..k + 1])
  {
    InsertedIs(mappings[..k], mappings[k].port);
    if i :| 0 <= i < k && mappings[..k][i].port == mappings[k].port {
      assert mappings[i].port == mappings[k].port;
    }
    var more := mappings[..k + 1];
    assert forall i :: 0 <= i < k ==> more[i] == mappings[..k][i];
    assert more[k] == mappings[k];
    hide Inserted;
  }

  /** The rows a writer inserts are its mappings, the last of each port. */
  lemma {:induction false} InsertedIs(mappings: seq<Mapping>, port: Port)
    ensures port in Inserted(map[], mappings) <==> exists i :: 0 <= i < |mappings| && mappings[i].port == port
    ensures port in Inserted(map[], mappings) ==>
      exists i :: 0 <= i < |mappings| && mappings[i] == Mapping(port, Inserted(map[], mappings)[port])
        && forall j :: i < j < |mappings| ==> mappings[j].port != port
  {
    if mappings != [] {
      var n := |mappings| - 1;
      InsertedIs(mappings[..n], port);
      if mappings[n].port != port && port in Inserted(map[], mappings) {
        var i :| 0 <= i < n && mappings[..n][i] == Mapping(port, Inserted(map[], mappings)[port])
          && forall j :: i < j < n ==> mappings[..n][j].port != port;
        assert forall j :: i < j < n ==> mappings[j].port == mappings[..n][j].port;
        assert mappings[i] == Mapping(port, Inserted(map[], mappings)[port]);
      }
    }
  }

  lemma ByPortEmpty(rows: seq<ResultRow>)
    ensures ByPort(rows) == map[] <==> rows == []
  {
    if rows != [] {
      assert rows[|rows| - 1].port in ByPort(rows);
    }
  }
}
