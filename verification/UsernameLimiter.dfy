/**
 The per-username login limiter (UsernameRateLimiter of backend/src/rateLimit.ts): failures counted in a
 window, attempts in flight, and a bound on the usernames tracked in the two maps together.

 `attempts` is a Map in the code; here it is the sequence of its entries in insertion order. Every method
 runs without interruption; attempts overlap between their beginAttempt and their endAttempt.
 */
module UsernameLimiter {
  import opened Sets
  import opened Wrappers

  datatype Username = Username(text: string)

  datatype Failures = Failures(user: Username, count: nat, resetAt: nat)

  datatype Config = Config(max: nat, windowMs: nat, maxTracked: nat)

  datatype Verdict = Allowed | Refused(retryAfterSeconds: nat)

  // ----- The map of failures

  function Find(attempts: seq<Failures>, u: Username): (k: nat)
    ensures k <= |attempts|
    ensures k < |attempts| ==> attempts[k].user == u
    ensures forall i :: 0 <= i < k ==> attempts[i].user != u
  {
    if attempts == [] || attempts[0].user == u then 0 else 1 + Find(attempts[1..], u)
  }

  function Delete(attempts: seq<Failures>, u: Username): seq<Failures> {
    var k := Find(attempts, u);
    if k == |attempts| then attempts else attempts[..k] + attempts[k + 1..]
  }

  /** The failures that still count against the username. */
  function Failed(attempts: seq<Failures>, u: Username, now: nat): nat {
    var k := Find(attempts, u);
    if k < |attempts| && now < attempts[k].resetAt then attempts[k].count else 0
  }

  /** One entry a username, and the windows end in the order the entries were inserted. */
  ghost predicate Ordered(attempts: seq<Failures>) {
    forall i, j :: 0 <= i < j < |attempts| ==>
      attempts[i].user != attempts[j].user && attempts[i].resetAt <= attempts[j].resetAt
  }

  function Unexpired(attempts: seq<Failures>, now: nat): seq<Failures> {
    if attempts == [] then []
    else (if now < attempts[0].resetAt then [attempts[0]] else []) + Unexpired(attempts[1..], now)
  }

  /** Once nothing expired is left and the map is full, the oldest entry goes. */
  function MakeRoom(attempts: seq<Failures>, now: nat, maxTracked: nat): seq<Failures> {
    if |attempts| < maxTracked then attempts
    else
      var rest := Unexpired(attempts, now);
      if |rest| >= maxTracked && rest != [] then rest[1..] else rest
  }

  function Record(attempts: seq<Failures>, u: Username, now: nat, c: Config): seq<Failures> {
    var k := Find(attempts, u);
    if k < |attempts| && now < attempts[k].resetAt then attempts[k := attempts[k].(count := attempts[k].count + 1)]
    else MakeRoom(Delete(attempts, u), now, c.maxTracked) + [Failures(u, 1, now + c.windowMs)]
  }

  /** Because windows end in insertion order, the expired entries are the oldest ones. */
  lemma {:induction false} ExpiredComeFirst(attempts: seq<Failures>, now: nat) returns (k: nat)
    requires Ordered(attempts)
    ensures k <= |attempts| && Unexpired(attempts, now) == attempts[k..]
    ensures forall i :: 0 <= i < k ==> attempts[i].resetAt <= now
    ensures forall i :: k <= i < |attempts| ==> now < attempts[i].resetAt
  {
    if attempts == [] {
      k := 0;
    } else if now < attempts[0].resetAt {
      AllUnexpired(attempts, now);
      k := 0;
    } else {
      k := ExpiredComeFirst(attempts[1..], now);
      k := k + 1;
      assert attempts[1..][k - 1..] == attempts[k..];
    }
  }

  lemma {:induction false} AllUnexpired(attempts: seq<Failures>, now: nat)
    requires forall i :: 0 <= i < |attempts| ==> now < attempts[i].resetAt
    ensures Unexpired(attempts, now) == attempts
  {
    if attempts != [] {
      AllUnexpired(attempts[1..], now);
    }
  }

  /**
   Making room drops a run of the oldest entries: those that have expired and, only if that is not enough, one
   more, the one whose window ends soonest of all that are left.
   */
  lemma EvictsTheSoonestEnding(attempts: seq<Failures>, now: nat, maxTracked: nat) returns (k: nat)
    requires Ordered(attempts) && |attempts| <= maxTracked && 0 < maxTracked
    ensures k <= |attempts| && MakeRoom(attempts, now, maxTracked) == attempts[k..]
    ensures |MakeRoom(attempts, now, maxTracked)| < maxTracked
    ensures (forall i :: 0 <= i < k ==> attempts[i].resetAt <= now)
      || (k == 1 && forall i :: 0 < i < |attempts| ==> attempts[0].resetAt <= attempts[i].resetAt)
  {
    k := 0;
    assert attempts[0..] == attempts;
    if |attempts| >= maxTracked {
      k := ExpiredComeFirst(attempts, now);
      if |attempts[k..]| >= maxTracked {
        assert k == 0;
        k := 1;
      }
    }
  }

  lemma FindIs(attempts: seq<Failures>, k: nat)
    requires Ordered(attempts) && k < |attempts|
    ensures Find(attempts, attempts[k].user) == k
  {
  }

  lemma SuffixOrdered(attempts: seq<Failures>, k: nat)
    requires Ordered(attempts) && k <= |attempts|
    ensures Ordered(attempts[k..])
  {
  }

  lemma SuffixFailed(attempts: seq<Failures>, k: nat, u: Username, now: nat)
    requires Ordered(attempts) && k <= |attempts|
    ensures Failed(attempts[k..], u, now) == if Find(attempts, u) < k then 0 else Failed(attempts, u, now)
  {
    var f := Find(attempts, u);
    SuffixOrdered(attempts, k);
    if k <= f < |attempts| {
      FindIs(attempts[k..], f - k);
    } else if f < k {
      assert forall i :: k <= i < |attempts| ==> attempts[i].user != u;
    }
  }

  lemma DeleteOrdered(attempts: seq<Failures>, u: Username)
    requires Ordered(attempts)
    ensures Ordered(Delete(attempts, u)) && Find(Delete(attempts, u), u) == |Delete(attempts, u)|
  {
    var k, rest := Find(attempts, u), Delete(attempts, u);
    if k < |attempts| {
      assert forall i :: 0 <= i < |rest| ==> rest[i] == attempts[if i < k then i else i + 1];
    }
  }

  lemma FailedIs(attempts: seq<Failures>, k: nat, now: nat)
    requires Ordered(attempts) && k < |attempts|
    ensures Failed(attempts, attempts[k].user, now) == if now < attempts[k].resetAt then attempts[k].count else 0
  {
    FindIs(attempts, k);
  }

  lemma NoneFailed(attempts: seq<Failures>, u: Username, now: nat)
    requires forall i :: 0 <= i < |attempts| ==> attempts[i].user != u
    ensures Failed(attempts, u, now) == 0
  {
  }

  lemma DeleteFailed(attempts: seq<Failures>, u: Username, v: Username, now: nat)
    requires Ordered(attempts)
    ensures Failed(Delete(attempts, u), v, now) == if v == u then 0 else Failed(attempts, v, now)
  {
    DeleteOrdered(attempts, u);
    var k, f, rest := Find(attempts, u), Find(attempts, v), Delete(attempts, u);
    if v == u || f == |attempts| {
      forall i | 0 <= i < |rest| ensures rest[i].user != v {
        assert rest[i] == attempts[if i < k then i else i + 1];
      }
      NoneFailed(rest, v, now);
    } else {
      var g := if k < f then f - 1 else f;
      assert rest[g] == attempts[f];
      FailedIs(rest, g, now);
      FailedIs(attempts, f, now);
    }
    hide Find, Failed, Ordered;
  }

  lemma SnocOrdered(attempts: seq<Failures>, x: Failures)
    requires Ordered(attempts) && Find(attempts, x.user) == |attempts|
    requires forall i :: 0 <= i < |attempts| ==> attempts[i].resetAt <= x.resetAt
    ensures Ordered(attempts + [x])
    ensures forall v, now :: v != x.user ==> Failed(attempts + [x], v, now) == Failed(attempts, v, now)
    ensures forall now: nat :: Failed(attempts + [x], x.user, now) == if now < x.resetAt then x.count else 0
  {
    var all := attempts + [x];
    FindIs(all, |attempts|);
    forall v, now | v != x.user ensures Failed(all, v, now) == Failed(attempts, v, now) {
      var f := Find(attempts, v);
      if f < |attempts| {
        FindIs(all, f);
      }
    }
  }

  lemma BumpOrdered(attempts: seq<Failures>, k: nat)
    requires Ordered(attempts) && k < |attempts|
    ensures var all := attempts[k := attempts[k].(count := attempts[k].count + 1)];
      && Ordered(all)
      && (forall v, now :: v != attempts[k].user ==> Failed(all, v, now) == Failed(attempts, v, now))
      && (forall now: nat :: now < attempts[k].resetAt ==> Failed(all, attempts[k].user, now) == Failed(attempts, attempts[k].user, now) + 1)
  {
    var all := attempts[k := attempts[k].(count := attempts[k].count + 1)];
    FindIs(all, k);
    FindIs(attempts, k);
    forall v, now | v != attempts[k].user ensures Failed(all, v, now) == Failed(attempts, v, now) {
      var f := Find(attempts, v);
      if f < |attempts| {
        FindIs(all, f);
      }
    }
  }

  // ----- The limiter

  type TicketId = nat

  /** An attempt that was let through and has not ended. */
  datatype Ticket = Ticket(user: Username, recorded: bool)

  datatype State = State(attempts: seq<Failures>, inflight: map<Username, nat>, tickets: map<TicketId, Ticket>, now: nat)

  function InFlight(inflight: map<Username, nat>, u: Username): nat {
    if u in inflight then inflight[u] else 0
  }

  /** check() forgets the username's window once it is over. */
  function Swept(attempts: seq<Failures>, u: Username, now: nat): seq<Failures> {
    var k := Find(attempts, u);
    if k < |attempts| && attempts[k].resetAt <= now then Delete(attempts, u) else attempts
  }

  /** Seconds, rounded up and at least one. */
  function Seconds(ms: nat): nat {
    if ms <= 1000 then 1 else (ms + 999) / 1000
  }

  function Checked(s: State, u: Username, c: Config): Verdict {
    var k := Find(s.attempts, u);
    if Failed(s.attempts, u, s.now) + InFlight(s.inflight, u) < c.max then Allowed
    else Refused(Seconds(if k < |s.attempts| && s.now < s.attempts[k].resetAt then s.attempts[k].resetAt - s.now else 1000))
  }

  /** A new username is refused once the two maps together hold `maxTracked` keys. */
  function Verdicts(s: State, u: Username, c: Config): Verdict {
    var swept := Swept(s.attempts, u, s.now);
    if Checked(s, u, c).Refused? then Checked(s, u, c)
    else if Find(swept, u) == |swept| && u !in s.inflight && |swept| + |s.inflight| >= c.maxTracked then Refused(1)
    else Allowed
  }

  function Begin(s: State, t: TicketId, u: Username, c: Config): State {
    var swept := s.(attempts := Swept(s.attempts, u, s.now));
    if Verdicts(s, u, c).Refused? then swept
    else swept.(inflight := s.inflight[u := InFlight(s.inflight, u) + 1], tickets := s.tickets[t := Ticket(u, false)])
  }

  function Release(inflight: map<Username, nat>, u: Username): map<Username, nat> {
    if InFlight(inflight, u) <= 1 then inflight - {u} else inflight[u := inflight[u] - 1]
  }

  // ----- Runs

  datatype Event =
    | Beginning(t: TicketId, u: Username)
    | Failing(t: TicketId)
    | Ending(t: TicketId)
    | Resetting(u: Username)
    | Ticking(now: nat)

  /** Tickets are fresh; an attempt records at most one failure, before its one end. The clock is monotone. */
  ghost predicate Enabled(s: State, e: Event) {
    match e
    case Beginning(t, _) => t !in s.tickets
    case Failing(t) => t in s.tickets && !s.tickets[t].recorded
    case Ending(t) => t in s.tickets
    case Resetting(_) => true
    case Ticking(now) => s.now <= now
  }

  function Step(s: State, e: Event, c: Config): State
    requires Enabled(s, e)
  {
    match e
    case Beginning(t, u) => Begin(s, t, u, c)
    case Failing(t) =>
      s.(attempts := Record(s.attempts, s.tickets[t].user, s.now, c), tickets := s.tickets[t := s.tickets[t].(recorded := true)])
    case Ending(t) => s.(inflight := Release(s.inflight, s.tickets[t].user), tickets := s.tickets - {t})
    case Resetting(u) => s.(attempts := Delete(s.attempts, u))
    case Ticking(now) => s.(now := now)
  }

  ghost predicate IsRun(run: seq<State>, events: seq<Event>, c: Config) {
    && |run| == |events| + 1
    && run[0] == State([], map[], map[], run[0].now)
    && forall i :: 0 <= i < |events| ==> Enabled(run[i], events[i]) && run[i + 1] == Step(run[i], events[i], c)
  }

  // ----- The invariants

  ghost function Open(s: State, u: Username): set<TicketId> {
    set t | t in s.tickets && s.tickets[t].user == u
  }

  ghost function Unrecorded(s: State, u: Username): set<TicketId> {
    set t | t in s.tickets && s.tickets[t].user == u && !s.tickets[t].recorded
  }

  ghost predicate MapOk(s: State, c: Config) {
    && Ordered(s.attempts)
    && (0 < c.maxTracked ==> |s.attempts| <= c.maxTracked)
    && forall i :: 0 <= i < |s.attempts| ==> s.attempts[i].resetAt <= s.now + c.windowMs
  }

  /** The slots of the username are its open attempts. */
  ghost predicate SlotsOk(s: State, u: Username) {
    && (u in s.inflight ==> 0 < s.inflight[u])
    && InFlight(s.inflight, u) == |Open(s, u)|
  }

  ghost predicate WithinMax(s: State, u: Username, c: Config) {
    Failed(s.attempts, u, s.now) + |Unrecorded(s, u)| <= c.max
  }

  ghost predicate Inv(s: State, c: Config) {
    && MapOk(s, c)
    && forall u :: SlotsOk(s, u) && WithinMax(s, u, c)
  }

  lemma UnrecordedAreOpen(s: State, u: Username)
    ensures |Unrecorded(s, u)| <= |Open(s, u)|
  {
    Subset(Unrecorded(s, u), Open(s, u));
  }

  /** A failure adds at most one to its username, and nothing to any other. */
  lemma RecordFacts(attempts: seq<Failures>, u: Username, now: nat, c: Config, v: Username)
    requires Ordered(attempts) && forall i :: 0 <= i < |attempts| ==> attempts[i].resetAt <= now + c.windowMs
    requires 0 < c.maxTracked ==> |attempts| <= c.maxTracked
    ensures var after := Record(attempts, u, now, c);
      && Ordered(after)
      && (0 < c.maxTracked ==> |after| <= c.maxTracked)
      && (forall i :: 0 <= i < |after| ==> after[i].resetAt <= now + c.windowMs)
      && Failed(after, v, now) <= Failed(attempts, v, now) + if v == u then 1 else 0
  {
    var k := Find(attempts, u);
    if k < |attempts| && now < attempts[k].resetAt {
      BumpOrdered(attempts, k);
      FailedIs(attempts, k, now);
    } else {
      NewWindow(attempts, u, now, c, v);
    }
    hide Failed, Ordered, MakeRoom, Delete;
  }

  lemma NewWindow(attempts: seq<Failures>, u: Username, now: nat, c: Config, v: Username)
    requires Ordered(attempts) && forall i :: 0 <= i < |attempts| ==> attempts[i].resetAt <= now + c.windowMs
    requires 0 < c.maxTracked ==> |attempts| <= c.maxTracked
    ensures var after := MakeRoom(Delete(attempts, u), now, c.maxTracked) + [Failures(u, 1, now + c.windowMs)];
      && Ordered(after)
      && (0 < c.maxTracked ==> |after| <= c.maxTracked)
      && (forall i :: 0 <= i < |after| ==> after[i].resetAt <= now + c.windowMs)
      && Failed(after, v, now) <= Failed(attempts, v, now) + if v == u then 1 else 0
  {
    hide Failed, Find;
    var rest := Delete(attempts, u);
    DeleteOrdered(attempts, u);
    DeleteFailed(attempts, u, v, now);
    DeleteKeepsBound(attempts, u, now + c.windowMs);
    hide Delete;
    var k := RoomIsSuffix(rest, now, c.maxTracked);
    SuffixOrdered(rest, k);
    SuffixFailed(rest, k, v, now);
    SuffixLacks(rest, k, u);
    SnocOrdered(rest[k..], Failures(u, 1, now + c.windowMs));
  }

  lemma DeleteKeepsBound(attempts: seq<Failures>, u: Username, bound: nat)
    requires forall i :: 0 <= i < |attempts| ==> attempts[i].resetAt <= bound
    ensures |Delete(attempts, u)| <= |attempts|
    ensures forall i :: 0 <= i < |Delete(attempts, u)| ==> Delete(attempts, u)[i].resetAt <= bound
  {
  }

  lemma SuffixLacks(attempts: seq<Failures>, k: nat, u: Username)
    requires Ordered(attempts) && k <= |attempts| && Find(attempts, u) == |attempts|
    ensures Find(attempts[k..], u) == |attempts[k..]|
  {
    assert forall i :: 0 <= i < |attempts[k..]| ==> attempts[k..][i] == attempts[i + k];
  }

  lemma RoomIsSuffix(attempts: seq<Failures>, now: nat, maxTracked: nat) returns (k: nat)
    requires Ordered(attempts) && (0 < maxTracked ==> |attempts| <= maxTracked)
    ensures k <= |attempts| && MakeRoom(attempts, now, maxTracked) == attempts[k..]
    ensures 0 < maxTracked ==> |attempts[k..]| < maxTracked
  {
    if 0 < maxTracked {
      k := EvictsTheSoonestEnding(attempts, now, maxTracked);
    } else {
      k := ExpiredComeFirst(attempts, now);
      if k < |attempts| {
        k := k + 1;
      }
    }
  }

  lemma StepKeepsMap(s: State, e: Event, c: Config)
    requires MapOk(s, c) && Enabled(s, e)
    ensures MapOk(Step(s, e, c), c)
  {
    hide Failed, Find, Ordered, Delete, Record, Verdicts;
    match e
    case Beginning(t, u) =>
      DeleteOrdered(s.attempts, u);
      DeleteKeepsBound(s.attempts, u, s.now + c.windowMs);
    case Failing(t) =>
      RecordFacts(s.attempts, s.tickets[t].user, s.now, c, s.tickets[t].user);
    case Ending(t) =>
    case Resetting(u) =>
      DeleteOrdered(s.attempts, u);
      DeleteKeepsBound(s.attempts, u, s.now + c.windowMs);
    case Ticking(now) =>
  }

  lemma BeginKeepsSlots(s: State, t: TicketId, v: Username, c: Config, u: Username)
    requires t !in s.tickets && SlotsOk(s, u)
    ensures SlotsOk(Begin(s, t, v, c), u)
  {
    hide Failed, Find, Delete, Verdicts, Swept;
    var after := Begin(s, t, v, c);
    if Verdicts(s, v, c).Refused? {
      assert Open(after, u) == Open(s, u);
    } else {
      OpenedTicket(s, after, t, v, u);
    }
  }

  /** A ticket was handed out. */
  lemma OpenedTicket(s: State, after: State, t: TicketId, v: Username, u: Username)
    requires t !in s.tickets && after.tickets == s.tickets[t := Ticket(v, false)]
    ensures Open(after, u) == if u == v then Open(s, u) + {t} else Open(s, u)
    ensures Unrecorded(after, u) == if u == v then Unrecorded(s, u) + {t} else Unrecorded(s, u)
    ensures t !in Open(s, u) && t !in Unrecorded(s, u)
  {
  }

  lemma EndKeepsSlots(s: State, t: TicketId, u: Username)
    requires t in s.tickets && SlotsOk(s, u)
    ensures SlotsOk(s.(inflight := Release(s.inflight, s.tickets[t].user), tickets := s.tickets - {t}), u)
  {
    var after := s.(inflight := Release(s.inflight, s.tickets[t].user), tickets := s.tickets - {t});
    assert Open(after, u) == Open(s, u) - {t};
    if s.tickets[t].user == u {
      assert t in Open(s, u);
    } else {
      assert Open(after, u) == Open(s, u);
    }
  }

  /** The step left the open attempts alone. */
  lemma SameOpen(s: State, e: Event, c: Config, u: Username)
    requires Enabled(s, e) && !e.Beginning? && !e.Ending?
    ensures Open(Step(s, e, c), u) == Open(s, u) && Step(s, e, c).inflight == s.inflight
  {
    hide Record, Delete;
  }

  lemma StepKeepsSlots(s: State, e: Event, c: Config, u: Username)
    requires Enabled(s, e) && SlotsOk(s, u)
    ensures SlotsOk(Step(s, e, c), u)
  {
    hide Begin, Record, Delete, Release, Open;
    if e.Beginning? {
      BeginKeepsSlots(s, e.t, e.u, c, u);
    } else if e.Ending? {
      EndKeepsSlots(s, e.t, u);
    } else {
      SameOpen(s, e, c, u);
    }
  }

  lemma SweptFailed(attempts: seq<Failures>, u: Username, v: Username, now: nat)
    requires Ordered(attempts)
    ensures Failed(Swept(attempts, u, now), v, now) == Failed(attempts, v, now)
  {
    DeleteFailed(attempts, u, v, now);
  }

  lemma FailedExpires(attempts: seq<Failures>, u: Username, now: nat, later: nat)
    requires now <= later
    ensures Failed(attempts, u, later) <= Failed(attempts, u, now)
  {
  }

  lemma BeginKeepsWithinMax(s: State, t: TicketId, v: Username, c: Config, u: Username)
    requires MapOk(s, c) && t !in s.tickets && SlotsOk(s, u) && WithinMax(s, u, c)
    ensures WithinMax(Begin(s, t, v, c), u, c)
  {
    hide Failed, Find, Delete, Swept, Open, Ordered;
    var after := Begin(s, t, v, c);
    SweptFailed(s.attempts, v, u, s.now);
    UnrecordedAreOpen(s, u);
    if Verdicts(s, v, c).Refused? {
      assert Unrecorded(after, u) == Unrecorded(s, u);
    } else {
      OpenedTicket(s, after, t, v, u);
      hide Unrecorded;
    }
  }

  lemma FailKeepsWithinMax(s: State, t: TicketId, c: Config, u: Username)
    requires MapOk(s, c) && Enabled(s, Failing(t)) && WithinMax(s, u, c)
    ensures WithinMax(Step(s, Failing(t), c), u, c)
  {
    hide Failed, Record, Ordered;
    var after := Step(s, Failing(t), c);
    RecordFacts(s.attempts, s.tickets[t].user, s.now, c, u);
    assert Unrecorded(after, u) == Unrecorded(s, u) - {t};
    if s.tickets[t].user == u {
      assert t in Unrecorded(s, u);
    } else {
      assert Unrecorded(after, u) == Unrecorded(s, u);
    }
  }

  lemma EndKeepsWithinMax(s: State, t: TicketId, c: Config, u: Username)
    requires Enabled(s, Ending(t)) && WithinMax(s, u, c)
    ensures WithinMax(Step(s, Ending(t), c), u, c)
  {
    hide Failed, Release;
    assert Unrecorded(Step(s, Ending(t), c), u) == Unrecorded(s, u) - {t};
  }

  lemma StepKeepsWithinMax(s: State, e: Event, c: Config, u: Username)
    requires MapOk(s, c) && Enabled(s, e) && SlotsOk(s, u) && WithinMax(s, u, c)
    ensures WithinMax(Step(s, e, c), u, c)
  {
    match e
    case Beginning(x, v) => BeginKeepsWithinMax(s, x, v, c, u);
    case Failing(x) => FailKeepsWithinMax(s, x, c, u);
    case Ending(x) => EndKeepsWithinMax(s, x, c, u);
    case Resetting(v) => ResetKeepsWithinMax(s, v, c, u);
    case Ticking(now) => TickKeepsWithinMax(s, now, c, u);
    hide Failed, Begin, Record, Unrecorded, Delete, Release, Ordered;
  }

  lemma ResetKeepsWithinMax(s: State, v: Username, c: Config, u: Username)
    requires MapOk(s, c) && WithinMax(s, u, c)
    ensures WithinMax(s.(attempts := Delete(s.attempts, v)), u, c)
  {
    DeleteFailed(s.attempts, v, u, s.now);
    assert Unrecorded(s.(attempts := Delete(s.attempts, v)), u) == Unrecorded(s, u);
    hide Failed, Delete, Ordered;
  }

  lemma TickKeepsWithinMax(s: State, now: nat, c: Config, u: Username)
    requires s.now <= now && WithinMax(s, u, c)
    ensures WithinMax(s.(now := now), u, c)
  {
    FailedExpires(s.attempts, u, s.now, now);
    assert Unrecorded(s.(now := now), u) == Unrecorded(s, u);
    hide Failed;
  }

  lemma StepKeepsInv(s: State, e: Event, c: Config)
    requires Inv(s, c) && Enabled(s, e)
    ensures Inv(Step(s, e, c), c)
  {
    StepKeepsMap(s, e, c);
    forall u ensures SlotsOk(Step(s, e, c), u) && WithinMax(Step(s, e, c), u, c) {
      StepKeepsSlots(s, e, c, u);
      StepKeepsWithinMax(s, e, c, u);
    }
    hide MapOk, SlotsOk, WithinMax, Step;
  }

  // ----- Every run

  lemma {:induction false} ReachableInv(run: seq<State>, events: seq<Event>, c: Config, n: nat)
    requires IsRun(run, events, c) && n < |run|
    ensures Inv(run[n], c)
    decreases n
  {
    hide Step;
    if n == 0 {
      forall u ensures SlotsOk(run[0], u) && WithinMax(run[0], u, c) {
        assert Open(run[0], u) == {} && Unrecorded(run[0], u) == {};
      }
    } else {
      ReachableInv(run, events, c, n - 1);
      StepKeepsInv(run[n - 1], events[n - 1], c);
      hide Inv;
    }
  }

  /** The failures that still count and the attempts whose outcome is open are never more than `max`, for any username. */
  lemma LockoutBound(run: seq<State>, events: seq<Event>, c: Config, n: nat, u: Username)
    requires IsRun(run, events, c) && n < |run|
    ensures Failed(run[n].attempts, u, run[n].now) + |Unrecorded(run[n], u)| <= c.max
  {
    ReachableInv(run, events, c, n);
    assert WithinMax(run[n], u, c);
  }

  /** The map of failures stays in the order in which windows end, so the oldest entry is always the one to end first. */
  lemma InsertionOrderIsExpiryOrder(run: seq<State>, events: seq<Event>, c: Config, n: nat)
    requires IsRun(run, events, c) && n < |run| && 0 < c.maxTracked
    ensures Ordered(run[n].attempts) && |run[n].attempts| <= c.maxTracked
  {
    ReachableInv(run, events, c, n);
  }

  /** The slot map has exactly the usernames with an open attempt: it is empty when none is. */
  lemma SlotsAreOpenAttempts(run: seq<State>, events: seq<Event>, c: Config, n: nat, u: Username)
    requires IsRun(run, events, c) && n < |run|
    ensures u in run[n].inflight <==> Open(run[n], u) != {}
    ensures InFlight(run[n].inflight, u) == |Open(run[n], u)|
  {
    ReachableInv(run, events, c, n);
    assert SlotsOk(run[n], u);
  }

  // ----- What an attempt meets

  /**
   An attempt is let through exactly when failures in the window and open attempts leave room, and its username is tracked
   already or there is room to track it.
   */
  lemma VerdictExactly(run: seq<State>, events: seq<Event>, c: Config, n: nat, t: TicketId, u: Username)
    requires IsRun(run, events, c) && n < |run| && Enabled(run[n], Beginning(t, u))
    ensures var s := run[n];
      var failed, open := Failed(s.attempts, u, s.now), |Open(s, u)|;
      var after := Step(s, Beginning(t, u), c);
      && (t in after.tickets <==>
        failed + open < c.max && (failed > 0 || open > 0 || |after.attempts| + |s.inflight| < c.maxTracked))
      && (Verdicts(s, u, c).Allowed? <==> t in after.tickets)
      && (t in after.tickets ==> after.tickets[t] == Ticket(u, false))
      && (failed + open >= c.max && failed == 0 ==> Verdicts(s, u, c) == Refused(1))
      && (failed + open < c.max && t !in after.tickets ==> Verdicts(s, u, c) == Refused(1))
  {
    var s := run[n];
    ReachableInv(run, events, c, n);
    assert SlotsOk(s, u);
    CountsStayPositive(run, events, c, n);
    SweptForgets(s.attempts, u, s.now);
    hide Inv, Delete, Ordered, IsRun;
  }

  /** A check forgets exactly the window of its username that is over. */
  lemma SweptForgets(attempts: seq<Failures>, u: Username, now: nat)
    requires Ordered(attempts)
    ensures var k, swept := Find(attempts, u), Swept(attempts, u, now);
      && (Find(swept, u) < |swept| <==> k < |attempts| && now < attempts[k].resetAt)
      && (k < |attempts| && now < attempts[k].resetAt ==> swept == attempts)
      && forall v, later: nat :: v != u ==> Failed(swept, v, later) == Failed(attempts, v, later)
  {
    DeleteOrdered(attempts, u);
    forall v, later: nat | v != u ensures Failed(Delete(attempts, u), v, later) == Failed(attempts, v, later) {
      DeleteFailed(attempts, u, v, later);
    }
    hide Delete, Ordered;
  }

  /** A reset forgets the failures of its username and no others. */
  lemma ResetForgets(s: State, u: Username, c: Config, v: Username, later: nat)
    requires MapOk(s, c)
    ensures Failed(Step(s, Resetting(u), c).attempts, v, later) == if v == u then 0 else Failed(s.attempts, v, later)
    ensures Step(s, Resetting(u), c).inflight == s.inflight && Step(s, Resetting(u), c).tickets == s.tickets
  {
    DeleteFailed(s.attempts, u, v, later);
    hide Delete, Failed, Ordered;
  }

  /** Time passes: windows end, and nothing else changes. */
  lemma TimePasses(s: State, c: Config, later: nat, u: Username)
    requires Enabled(s, Ticking(later))
    ensures Step(s, Ticking(later), c) == State(s.attempts, s.inflight, s.tickets, later)
    ensures var k := Find(s.attempts, u);
      k < |s.attempts| && s.attempts[k].resetAt <= later ==> Failed(s.attempts, u, Step(s, Ticking(later), c).now) == 0
  {
  }

  // ----- Failures count

  /** A failure adds exactly one to what counts against its username now, until the end of the window. */
  lemma RecordCounts(attempts: seq<Failures>, u: Username, now: nat, c: Config, later: nat)
    requires Ordered(attempts) && forall i :: 0 <= i < |attempts| ==> attempts[i].resetAt <= now + c.windowMs
    requires 0 < c.maxTracked ==> |attempts| <= c.maxTracked
    ensures 0 < c.windowMs ==> Failed(Record(attempts, u, now, c), u, now) == Failed(attempts, u, now) + 1
    ensures Failed(attempts, u, now) == 0 && now <= later < now + c.windowMs && PositiveCounts(attempts) ==>
      Failed(Record(attempts, u, now, c), u, later) == 1
  {
    var k := Find(attempts, u);
    if k < |attempts| && now < attempts[k].resetAt {
      BumpOrdered(attempts, k);
      FailedIs(attempts, k, now);
    } else {
      OpensWindow(attempts, u, now, c);
      var after := Record(attempts, u, now, c);
      assert after == MakeRoom(Delete(attempts, u), now, c.maxTracked) + [Failures(u, 1, now + c.windowMs)];
      hide Failed, Record, MakeRoom, Delete, Find;
      assert now < now + c.windowMs ==> Failed(after, u, now) == 1;
      assert later < now + c.windowMs ==> Failed(after, u, later) == 1;
    }
  }

  /** No entry counts nothing. */
  ghost predicate PositiveCounts(attempts: seq<Failures>) {
    forall i :: 0 <= i < |attempts| ==> 0 < attempts[i].count
  }

  lemma OpensWindow(attempts: seq<Failures>, u: Username, now: nat, c: Config)
    requires Ordered(attempts) && forall i :: 0 <= i < |attempts| ==> attempts[i].resetAt <= now + c.windowMs
    requires 0 < c.maxTracked ==> |attempts| <= c.maxTracked
    ensures var after := MakeRoom(Delete(attempts, u), now, c.maxTracked) + [Failures(u, 1, now + c.windowMs)];
      forall t: nat :: Failed(after, u, t) == if t < now + c.windowMs then 1 else 0
    ensures var rest := MakeRoom(Delete(attempts, u), now, c.maxTracked);
      forall v, t: nat :: v != u ==>
        Failed(rest + [Failures(u, 1, now + c.windowMs)], v, t) == Failed(attempts, v, t)
        || Failed(rest + [Failures(u, 1, now + c.windowMs)], v, t) == 0
  {
    hide Failed, Find;
    var rest := Delete(attempts, u);
    DeleteOrdered(attempts, u);
    DeleteKeepsBound(attempts, u, now + c.windowMs);
    forall v, t: nat | v != u ensures Failed(rest, v, t) == Failed(attempts, v, t) {
      DeleteFailed(attempts, u, v, t);
    }
    hide Delete;
    var k := RoomIsSuffix(rest, now, c.maxTracked);
    SuffixOrdered(rest, k);
    SuffixLacks(rest, k, u);
    SnocOrdered(rest[k..], Failures(u, 1, now + c.windowMs));
    forall v, t: nat | v != u ensures Failed(rest[k..], v, t) == Failed(rest, v, t) || Failed(rest[k..], v, t) == 0 {
      SuffixFailed(rest, k, v, t);
    }
  }

  /** The failures of a username recorded from step `m` to `n`. */
  ghost function Fails(run: seq<State>, events: seq<Event>, m: nat, n: nat, u: Username): nat
    requires m <= n <= |events| <= |run|
  {
    if m == n then 0
    else Fails(run, events, m, n - 1, u) + if FailsNow(run[n - 1], events[n - 1], u) then 1 else 0
  }

  predicate FailsNow(s: State, e: Event, u: Username) {
    e.Failing? && e.t in s.tickets && s.tickets[e.t].user == u
  }

  /** A window that lasts until `t`, and that the step neither resets nor evicts, gains the failures of the username alone. */
  lemma FailedStep(s: State, e: Event, c: Config, u: Username, t: nat)
    requires MapOk(s, c) && Enabled(s, e) && s.now <= t
    requires 0 < Failed(s.attempts, u, t) && 0 < Failed(Step(s, e, c).attempts, u, t)
    ensures Failed(Step(s, e, c).attempts, u, t) == Failed(s.attempts, u, t) + if FailsNow(s, e, u) then 1 else 0
  {
    match e
    case Beginning(_, v) => SweptLater(s.attempts, v, u, s.now, t);
    case Failing(x) => RecordLater(s.attempts, s.tickets[x].user, s.now, c, u, t);
    case Ending(_) =>
    case Resetting(v) => DeleteFailed(s.attempts, v, u, t);
    case Ticking(_) =>
    hide Failed, Find, Delete, Record, Swept, Ordered;
  }

  lemma SweptLater(attempts: seq<Failures>, v: Username, u: Username, now: nat, t: nat)
    requires Ordered(attempts) && now <= t
    ensures Failed(Swept(attempts, v, now), u, t) == Failed(attempts, u, t)
  {
    var k := Find(attempts, v);
    if k < |attempts| && attempts[k].resetAt <= now {
      DeleteFailed(attempts, v, u, t);
    }
    hide Delete, Ordered;
  }

  lemma RecordLater(attempts: seq<Failures>, v: Username, now: nat, c: Config, u: Username, t: nat)
    requires Ordered(attempts) && forall i :: 0 <= i < |attempts| ==> attempts[i].resetAt <= now + c.windowMs
    requires 0 < c.maxTracked ==> |attempts| <= c.maxTracked
    requires now <= t && 0 < Failed(attempts, u, t) && 0 < Failed(Record(attempts, v, now, c), u, t)
    ensures Failed(Record(attempts, v, now, c), u, t) == Failed(attempts, u, t) + if v == u then 1 else 0
  {
    var k := Find(attempts, v);
    if k < |attempts| && now < attempts[k].resetAt {
      BumpOrdered(attempts, k);
    } else {
      OpensWindow(attempts, v, now, c);
    }
    hide Ordered, MakeRoom, Delete;
  }

  /** Failures in a window that is neither reset nor evicted all count. */
  lemma {:induction false} FailuresAddUp(run: seq<State>, events: seq<Event>, c: Config, m: nat, n: nat, u: Username, t: nat)
    requires IsRun(run, events, c) && m <= n < |run| && run[n].now <= t
    requires forall i :: m <= i <= n ==> 0 < Failed(run[i].attempts, u, t)
    ensures Failed(run[n].attempts, u, t) == Failed(run[m].attempts, u, t) + Fails(run, events, m, n, u)
    decreases n
  {
    hide Step, Failed, Inv, FailsNow;
    if m < n {
      ClockStep(run[n - 1], events[n - 1], c);
      FailuresAddUp(run, events, c, m, n - 1, u, t);
      ReachableInv(run, events, c, n - 1);
      MapIsOk(run[n - 1], c);
      FailedStep(run[n - 1], events[n - 1], c, u, t);
    }
  }

  lemma ClockStep(s: State, e: Event, c: Config)
    requires Enabled(s, e)
    ensures s.now <= Step(s, e, c).now
  {
    hide Record, Swept, Verdicts, Delete;
  }

  lemma MapIsOk(s: State, c: Config)
    requires Inv(s, c)
    ensures MapOk(s, c)
  {
  }

  lemma {:induction false} CountsStayPositive(run: seq<State>, events: seq<Event>, c: Config, n: nat)
    requires IsRun(run, events, c) && n < |run|
    ensures PositiveCounts(run[n].attempts)
    decreases n
  {
    hide Step, PositiveCounts;
    if n > 0 {
      CountsStayPositive(run, events, c, n - 1);
      StepKeepsPositive(run[n - 1], events[n - 1], c);
    } else {
      NonePositive();
    }
  }

  lemma NonePositive()
    ensures PositiveCounts([])
  {
  }

  lemma StepKeepsPositive(s: State, e: Event, c: Config)
    requires PositiveCounts(s.attempts) && Enabled(s, e)
    ensures PositiveCounts(Step(s, e, c).attempts)
  {
    hide Find, Failed, Verdicts;
    if e.Failing? {
      RecordPositive(s.attempts, s.tickets[e.t].user, s.now, c);
      hide Record;
    }
  }

  lemma RecordPositive(attempts: seq<Failures>, u: Username, now: nat, c: Config)
    requires PositiveCounts(attempts)
    ensures PositiveCounts(Record(attempts, u, now, c))
  {
    var rest := Delete(attempts, u);
    UnexpiredUsers(rest, now);
    assert forall x :: x in rest ==> x in attempts;
    var kept := MakeRoom(rest, now, c.maxTracked);
    assert forall x :: x in kept ==> x in rest;
    forall i | 0 <= i < |kept| ensures 0 < kept[i].count {
      assert kept[i] in attempts;
    }
  }

  /**
   Lockout. A failure opens a window for its username at step `m`. Before the window ends, and unless it is reset or
   evicted, exactly the failures since count; once they are `max`, every attempt of the username is refused.
   */
  lemma MaxFailuresLockOut(run: seq<State>, events: seq<Event>, c: Config, m: nat, n: nat, u: Username)
    requires IsRun(run, events, c) && m < n < |run| && FailsNow(run[m], events[m], u)
    requires Failed(run[m].attempts, u, run[m].now) == 0 && run[n].now < run[m].now + c.windowMs
    requires forall i :: m < i <= n ==> 0 < Failed(run[i].attempts, u, run[n].now)
    ensures Failed(run[n].attempts, u, run[n].now) == Fails(run, events, m, n, u)
    ensures Fails(run, events, m, n, u) >= c.max ==> Verdicts(run[n], u, c).Refused?
  {
    var s, t := run[m], run[n].now;
    ReachableInv(run, events, c, m);
    MapIsOk(s, c);
    CountsStayPositive(run, events, c, m);
    ClockRuns(run, events, c, m, n);
    RecordCounts(s.attempts, u, s.now, c, t);
    FailuresAddUp(run, events, c, m + 1, n, u, t);
    FailsFrom(run, events, m, n, u);
    hide Inv, Failed, Record, Find, Swept, PositiveCounts;
  }

  lemma {:induction false} ClockRuns(run: seq<State>, events: seq<Event>, c: Config, m: nat, n: nat)
    requires IsRun(run, events, c) && m <= n < |run|
    ensures run[m].now <= run[n].now
    decreases n
  {
    hide Step;
    if m < n {
      ClockRuns(run, events, c, m, n - 1);
      ClockStep(run[n - 1], events[n - 1], c);
    }
  }

  lemma {:induction false} FailsFrom(run: seq<State>, events: seq<Event>, m: nat, n: nat, u: Username)
    requires m < n <= |events| <= |run|
    ensures Fails(run, events, m, n, u) == Fails(run, events, m + 1, n, u) + if FailsNow(run[m], events[m], u) then 1 else 0
    decreases n
  {
    if m + 1 < n {
      FailsFrom(run, events, m, n - 1, u);
    }
  }

  // ----- The bound on memory

  function Users(attempts: seq<Failures>): set<Username> {
    set x | x in attempts :: x.user
  }

  ghost predicate Tracked(s: State, c: Config) {
    |Users(s.attempts) + s.inflight.Keys| <= c.maxTracked
  }

  lemma {:induction false} UsersAtMost(attempts: seq<Failures>)
    ensures |Users(attempts)| <= |attempts|
  {
    if attempts != [] {
      var n := |attempts| - 1;
      UsersAtMost(attempts[..n]);
      assert attempts == attempts[..n] + [attempts[n]];
      assert Users(attempts) == Users(attempts[..n]) + {attempts[n].user};
    }
  }

  lemma FewerUsers(s: State, t: State, c: Config)
    requires Tracked(s, c) && Users(t.attempts) + t.inflight.Keys <= Users(s.attempts) + s.inflight.Keys
    ensures Tracked(t, c)
  {
    Subset(Users(t.attempts) + t.inflight.Keys, Users(s.attempts) + s.inflight.Keys);
  }

  lemma BeginKeepsTracked(s: State, t: TicketId, u: Username, c: Config)
    requires Tracked(s, c)
    ensures Tracked(Begin(s, t, u, c), c)
  {
    hide Failed, Find, Delete, Users, Checked, InFlight;
    var swept := Swept(s.attempts, u, s.now);
    DeleteUsers(s.attempts, u);
    assert Users(swept) <= Users(s.attempts);
    FoundIsUser(swept, u);
    hide Swept;
    if Verdicts(s, u, c).Refused? {
      FewerUsers(s, Begin(s, t, u, c), c);
    } else {
      AdmittedTracked(s, swept, Begin(s, t, u, c), u, c);
    }
  }

  lemma AdmittedTracked(s: State, swept: seq<Failures>, after: State, u: Username, c: Config)
    requires Tracked(s, c) && Users(swept) <= Users(s.attempts)
    requires after.attempts == swept && after.inflight.Keys == s.inflight.Keys + {u}
    requires u in Users(swept) || u in s.inflight || |swept| + |s.inflight| < c.maxTracked
    ensures Tracked(after, c)
  {
    hide Users;
    if u in Users(swept) || u in s.inflight {
      FewerUsers(s, after, c);
    } else {
      UsersAtMost(swept);
      Union(Users(swept), s.inflight.Keys);
      assert Users(swept) + after.inflight.Keys == (Users(swept) + s.inflight.Keys) + {u};
    }
  }

  lemma FoundIsUser(attempts: seq<Failures>, u: Username)
    ensures Find(attempts, u) < |attempts| ==> u in Users(attempts)
  {
    if Find(attempts, u) < |attempts| {
      assert attempts[Find(attempts, u)] in attempts;
    }
  }

  lemma DeleteUsers(attempts: seq<Failures>, u: Username)
    ensures Users(Delete(attempts, u)) <= Users(attempts)
  {
  }

  lemma {:induction false} UnexpiredUsers(attempts: seq<Failures>, now: nat)
    ensures forall x :: x in Unexpired(attempts, now) ==> x in attempts
  {
    if attempts != [] {
      UnexpiredUsers(attempts[1..], now);
    }
  }

  lemma RecordUsers(attempts: seq<Failures>, u: Username, now: nat, c: Config)
    ensures Users(Record(attempts, u, now, c)) <= Users(attempts) + {u}
  {
    var k := Find(attempts, u);
    if k < |attempts| && now < attempts[k].resetAt {
      BumpUsers(attempts, k);
    } else {
      var rest := Delete(attempts, u);
      DeleteUsers(attempts, u);
      UnexpiredUsers(rest, now);
      assert forall x :: x in MakeRoom(rest, now, c.maxTracked) ==> x in rest;
    }
  }

  lemma BumpUsers(attempts: seq<Failures>, k: nat)
    requires k < |attempts|
    ensures Users(attempts[k := attempts[k].(count := attempts[k].count + 1)]) <= Users(attempts)
  {
    var all := attempts[k := attempts[k].(count := attempts[k].count + 1)];
    forall x | x in all ensures x.user in Users(attempts) {
      var i :| 0 <= i < |all| && all[i] == x;
      assert attempts[i] in attempts;
    }
  }

  lemma StepKeepsTracked(s: State, e: Event, c: Config)
    requires Inv(s, c) && Tracked(s, c) && Enabled(s, e)
    ensures Tracked(Step(s, e, c), c)
  {
    hide Failed, Find, Delete, Record, MapOk, WithinMax, Users, Begin;
    match e
    case Beginning(t, u) =>
      BeginKeepsTracked(s, t, u, c);
    case Failing(t) =>
      RecordUsers(s.attempts, s.tickets[t].user, s.now, c);
      assert SlotsOk(s, s.tickets[t].user);
      assert t in Open(s, s.tickets[t].user);
      FewerUsers(s, Step(s, e, c), c);
    case Ending(t) =>
      FewerUsers(s, Step(s, e, c), c);
    case Resetting(u) =>
      DeleteUsers(s.attempts, u);
      FewerUsers(s, Step(s, e, c), c);
    case Ticking(now) =>
  }

  /** When only holders of a slot record failures, the two maps together never track more than `maxTracked` usernames. */
  lemma {:induction false} TrackedBound(run: seq<State>, events: seq<Event>, c: Config, n: nat)
    requires IsRun(run, events, c) && n < |run|
    ensures |Users(run[n].attempts) + run[n].inflight.Keys| <= c.maxTracked
    decreases n
  {
    hide Step, Users;
    if n == 0 {
      NoUsers();
    } else {
      TrackedBound(run, events, c, n - 1);
      ReachableInv(run, events, c, n - 1);
      StepKeepsTracked(run[n - 1], events[n - 1], c);
      hide Inv;
    }
  }

  lemma NoUsers()
    ensures Users([]) == {}
  {
  }

  // ----- The advice to a refused caller

  /**
   A username whose failures fill the bucket stays refused until its window ends, and the advised wait is the
   smallest whole number of seconds after which it is let through again, once nothing of it is in flight.
   */
  lemma RetryAfterIsExact(s: State, u: Username, c: Config, later: nat)
    requires 0 < c.max <= Failed(s.attempts, u, s.now) && s.now <= later
    ensures Checked(s, u, c).Refused?
    ensures var r := Checked(s, u, c).retryAfterSeconds;
      && (later >= s.now + 1000 * r ==> Checked(State(s.attempts, map[], map[], later), u, c).Allowed?)
      && (r > 1 && later <= s.now + 1000 * (r - 1) ==> Checked(State(s.attempts, map[], map[], later), u, c).Refused?)
  {
    var k := Find(s.attempts, u);
    SecondsRoundUp(s.attempts[k].resetAt - s.now);
  }

  lemma SecondsRoundUp(ms: nat)
    ensures ms <= 1000 * Seconds(ms) && 1 <= Seconds(ms)
    ensures Seconds(ms) > 1 ==> 1000 * (Seconds(ms) - 1) < ms
  {
  }

  // ----- The code

  class UsernameRateLimiter {
    const max: nat
    const windowMs: nat
    const maxTracked: nat
    var attempts: seq<Failures>
    var inflight: map<Username, nat>

    ghost function View(now: nat): State
      reads this
    {
      State(attempts, inflight, map[], now)
    }

    ghost function Settings(): Config {
      Config(max, windowMs, maxTracked)
    }

    constructor (c: Config)
      ensures Settings() == c && attempts == [] && inflight == map[]
    {
      max, windowMs, maxTracked := c.max, c.windowMs, c.maxTracked;
      attempts, inflight := [], map[];
    }

    method IndexOf(u: Username) returns (k: nat)
      ensures k == Find(attempts, u)
    {
      k := 0;
      while k < |attempts| && attempts[k].user != u
        invariant k <= |attempts| && forall i :: 0 <= i < k ==> attempts[i].user != u
      {
        k := k + 1;
      }
    }

    method Forget(u: Username)
      modifies this`attempts
      ensures attempts == Delete(old(attempts), u)
    {
      var k := IndexOf(u);
      if k < |attempts| {
        attempts := attempts[..k] + attempts[k + 1..];
      }
    }

    method Check(u: Username, now: nat) returns (verdict: Verdict)
      modifies this`attempts
      ensures verdict == Checked(old(View(now)), u, Settings())
      ensures attempts == Swept(old(attempts), u, now)
    {
      var k := IndexOf(u);
      var failed, resetAt := 0, now + 1000;
      if k < |attempts| {
        if now < attempts[k].resetAt {
          failed, resetAt := attempts[k].count, attempts[k].resetAt;
        } else {
          Forget(u);
        }
      }
      var busy := if u in inflight then inflight[u] else 0;
      if failed + busy >= max {
        return Refused(Seconds(resetAt - now));
      }
      verdict := Allowed;
    }

    method BeginAttempt(u: Username, now: nat) returns (verdict: Verdict)
      modifies this
      ensures verdict == Verdicts(old(View(now)), u, Settings())
      ensures attempts == Begin(old(View(now)), 0, u, Settings()).attempts
      ensures inflight == Begin(old(View(now)), 0, u, Settings()).inflight
    {
      hide Find, Failed, Delete;
      verdict := Check(u, now);
      if verdict.Refused? {
        return;
      }
      var k := IndexOf(u);
      if k == |attempts| && u !in inflight && |attempts| + |inflight| >= maxTracked {
        return Refused(1);
      }
      var current := if u in inflight then inflight[u] else 0;
      inflight := inflight[u := current + 1];
    }

    method EndAttempt(u: Username)
      modifies this`inflight
      ensures inflight == Release(old(inflight), u)
    {
      var current := if u in inflight then inflight[u] else 0;
      if current <= 1 {
        inflight := inflight - {u};
      } else {
        inflight := inflight[u := current - 1];
      }
    }

    method EvictExpired(now: nat)
      modifies this`attempts
      ensures attempts == Unexpired(old(attempts), now)
    {
      var i := 0;
      assert attempts[0..] == attempts;
      while i < |attempts|
        invariant i <= |attempts|
        invariant Unexpired(old(attempts), now) == attempts[..i] + Unexpired(attempts[i..], now)
        decreases |attempts| - i
      {
        assert attempts[i..][1..] == attempts[i + 1..];
        if attempts[i].resetAt <= now {
          ghost var before := attempts;
          attempts := attempts[..i] + attempts[i + 1..];
          assert attempts[..i] == before[..i] && attempts[i..] == before[i + 1..];
        } else {
          assert attempts[..i + 1] == attempts[..i] + [attempts[i]];
          i := i + 1;
        }
      }
      assert attempts[..i] == attempts;
    }

    method RecordFailure(u: Username, now: nat)
      modifies this`attempts
      ensures attempts == Record(old(attempts), u, now, Settings())
    {
      hide Unexpired, Find, Delete;
      var k := IndexOf(u);
      if k < |attempts| && now < attempts[k].resetAt {
        attempts := attempts[k := attempts[k].(count := attempts[k].count + 1)];
        return;
      }
      Forget(u);
      if |attempts| >= maxTracked {
        EvictExpired(now);
        if |attempts| >= maxTracked && |attempts| > 0 {
          attempts := attempts[1..];
        }
      }
      attempts := attempts + [Failures(u, 1, now + windowMs)];
    }

    method Reset(u: Username)
      modifies this`attempts
      ensures attempts == Delete(old(attempts), u)
    {
      Forget(u);
    }
  }
}
