/**
 Registration with invite codes (registerUser, createInvite and revokeInvite of backend/src/auth.ts) as
 sequences of atomic D1 statements that interleave in any way.

 Codes are named by their hash. User ids and minted codes are fresh, accounts are never deleted, and the
 clock is monotone. `used_by` and `used_at` of a code are always set and cleared together.
 */
module Invites {
  import opened Sets
  import opened Wrappers

  datatype UserId = UserId(uuid: string)
  datatype CodeHash = CodeHash(hex: string)

  datatype Account = Account(username: string, isAdmin: bool)

  datatype Code = Code(createdBy: UserId, expiresAt: Option<nat>, usedBy: Option<UserId>)

  /** Where a registration stands; NoUsersSeen is the bootstrap path after its first look. */
  datatype Progress = Started | NoUsersSeen | Claimed | InsertFailed | Registered | Refused

  datatype Registration = Registration(username: string, code: Option<CodeHash>, progress: Progress)

  datatype State = State(users: map<UserId, Account>, codes: map<CodeHash, Code>,
                         registrations: map<UserId, Registration>, now: nat)

  const MAX_UNUSED_INVITES_PER_USER := 20

  predicate Unexpired(c: Code, now: nat) {
    c.expiresAt.None? || c.expiresAt.value > now
  }

  predicate Redeemable(s: State, h: CodeHash) {
    h in s.codes && s.codes[h].usedBy.None? && Unexpired(s.codes[h], s.now)
  }

  predicate Taken(s: State, username: string) {
    exists u :: u in s.users && s.users[u].username == username
  }

  /** The unused, unexpired codes an account has minted. */
  function Outstanding(s: State, creator: UserId): set<CodeHash> {
    set h | h in s.codes && s.codes[h].createdBy == creator && Redeemable(s, h)
  }

  function Advance(s: State, u: UserId, p: Progress): State
    requires u in s.registrations
  {
    s.(registrations := s.registrations[u := s.registrations[u].(progress := p)])
  }

  function SetUsedBy(s: State, h: CodeHash, u: Option<UserId>): State
    requires h in s.codes
  {
    s.(codes := s.codes[h := s.codes[h].(usedBy := u)])
  }

  /** `effect` says whether a statement took effect although it reported an error. */
  datatype Event =
    | Registering(u: UserId, username: string, code: Option<CodeHash>)
    | LookingForUsers(u: UserId)
    | LookErred(u: UserId)
    | BootstrapInserting(u: UserId)
    | BootstrapErred(u: UserId, effect: bool)
    | Claiming(u: UserId)
    | ClaimErred(u: UserId, effect: bool)
    | Inserting(u: UserId)
    | InsertErred(u: UserId, effect: bool)
    | Releasing(u: UserId)
    | ReleaseErred(u: UserId, effect: bool)
    | Minting(creator: UserId, h: CodeHash, expiresAt: nat)
    | Revoking(h: CodeHash)
    | Ticking(now: nat)

  predicate Stands(s: State, u: UserId, p: Progress) {
    u in s.registrations && s.registrations[u].progress == p
  }

  predicate HasCode(s: State, u: UserId) {
    u in s.registrations && s.registrations[u].code.Some?
  }

  /** The id was never seen before. */
  predicate FreshId(s: State, u: UserId) {
    u !in s.registrations && u !in s.users && forall h :: h in s.codes ==> s.codes[h].usedBy != Some(u)
  }

  predicate Enabled(s: State, e: Event) {
    match e
    case Registering(u, _, _) => FreshId(s, u)
    case LookingForUsers(u) => Stands(s, u, Started) && !HasCode(s, u)
    case LookErred(u) => Stands(s, u, Started) && !HasCode(s, u)
    case BootstrapInserting(u) => Stands(s, u, NoUsersSeen)
    case BootstrapErred(u, _) => Stands(s, u, NoUsersSeen)
    case Claiming(u) => Stands(s, u, Started) && HasCode(s, u)
    case ClaimErred(u, _) => Stands(s, u, Started) && HasCode(s, u)
    case Inserting(u) => Stands(s, u, Claimed)
    case InsertErred(u, _) => Stands(s, u, Claimed)
    case Releasing(u) => Stands(s, u, InsertFailed) && HasCode(s, u)
    case ReleaseErred(u, _) => Stands(s, u, InsertFailed) && HasCode(s, u)
    case Minting(_, h, _) => h !in s.codes
    case Revoking(_) => true
    case Ticking(now) => s.now <= now
  }

  /** UPDATE … SET used_by WHERE the code is unused and in date. */
  function Claim(s: State, u: UserId): State
    requires HasCode(s, u)
  {
    var h := s.registrations[u].code.value;
    if Redeemable(s, h) then Advance(SetUsedBy(s, h, Some(u)), u, Claimed) else Advance(s, u, Refused)
  }

  /** UPDATE … SET used_by = NULL WHERE the code is this registration's. */
  function Release(s: State, u: UserId): State
    requires HasCode(s, u)
  {
    var h := s.registrations[u].code.value;
    Advance(if h in s.codes && s.codes[h].usedBy == Some(u) then SetUsedBy(s, h, None) else s, u, Refused)
  }

  function Insert(s: State, u: UserId, isAdmin: bool): State
    requires u in s.registrations
  {
    s.(users := s.users[u := Account(s.registrations[u].username, isAdmin)])
  }

  function Step(s: State, e: Event): State
    requires Enabled(s, e)
  {
    match e
    case Registering(u, username, code) => s.(registrations := s.registrations[u := Registration(username, code, Started)])
    case LookingForUsers(u) => Advance(s, u, if s.users == map[] then NoUsersSeen else Refused)
    case LookErred(u) => Advance(s, u, Refused)
    case BootstrapErred(u, effect) => Advance(if effect && s.users == map[] then Insert(s, u, true) else s, u, Refused)
    case BootstrapInserting(u) =>
      if s.users == map[] then Advance(Insert(s, u, true), u, Registered) else Advance(s, u, Refused)
    case Claiming(u) => Claim(s, u)
    case ClaimErred(u, effect) => Advance(if effect then Claim(s, u) else s, u, Refused)
    case Inserting(u) =>
      if Taken(s, s.registrations[u].username) then Advance(s, u, InsertFailed) else Advance(Insert(s, u, false), u, Registered)
    case InsertErred(u, effect) =>
      Advance(if effect && !Taken(s, s.registrations[u].username) then Insert(s, u, false) else s, u, InsertFailed)
    case Releasing(u) => Release(s, u)
    case ReleaseErred(u, effect) => if effect then Release(s, u) else Advance(s, u, Refused)
    case Minting(creator, h, expiresAt) =>
      if |Outstanding(s, creator)| < MAX_UNUSED_INVITES_PER_USER
      then s.(codes := s.codes[h := Code(creator, Some(expiresAt), None)])
      else s
    case Revoking(h) => if h in s.codes && s.codes[h].usedBy.None? then s.(codes := s.codes - {h}) else s
    case Ticking(now) => s.(now := now)
  }

  /** A run from a database without accounts, whatever codes an operator has put there. */
  ghost predicate IsRun(run: seq<State>, events: seq<Event>) {
    && |run| == |events| + 1
    && run[0].users == map[] && run[0].registrations == map[]
    && forall i :: 0 <= i < |events| ==> Enabled(run[i], events[i]) && run[i + 1] == Step(run[i], events[i])
  }

  /** The INSERT of an account by invite took effect and reported an error. */
  predicate Misreports(s: State, e: Event, u: UserId) {
    u in s.registrations && e == InsertErred(u, true) && !Taken(s, s.registrations[u].username)
  }

  /** The release of a registration's code took effect, whatever it reported. */
  predicate Releases(e: Event, u: UserId) {
    e == Releasing(u) || e == ReleaseErred(u, true)
  }

  ghost predicate Misreported(run: seq<State>, events: seq<Event>, n: nat, u: UserId)
    requires n <= |events| < |run|
  {
    exists i :: 0 <= i < n && Misreports(run[i], events[i], u)
  }

  ghost predicate Released(events: seq<Event>, n: nat, u: UserId)
    requires n <= |events|
  {
    exists i :: 0 <= i < n && Releases(events[i], u)
  }

  // ----- The invariant

  /** The registration's own code is marked with its id. */
  ghost predicate Owns(s: State, u: UserId)
    requires HasCode(s, u)
  {
    s.registrations[u].code.value in s.codes && s.codes[s.registrations[u].code.value].usedBy == Some(u)
  }

  ghost predicate RegistrationOk(s: State, u: UserId)
    requires u in s.registrations
  {
    var r := s.registrations[u];
    && (r.progress.Registered? ==> u in s.users)
    && (u in s.users ==> r.progress.Registered? || r.progress.InsertFailed? || r.progress.Refused?)
    && (r.progress.NoUsersSeen? ==> r.code.None?)
    && (r.progress.Claimed? || r.progress.InsertFailed? ==> r.code.Some?)
    && (r.code.Some? && (r.progress.Claimed? || r.progress.InsertFailed? || r.progress.Registered?) ==> Owns(s, u))
  }

  /** The account came in without an invite. */
  predicate Bootstrap(s: State, u: UserId) {
    u in s.users && u in s.registrations && s.registrations[u].code.None?
  }

  ghost predicate Inv(s: State) {
    && (forall u :: u in s.registrations ==> RegistrationOk(s, u))
    && (forall u :: u in s.users ==> u in s.registrations)
    && (forall u, v :: Bootstrap(s, u) && Bootstrap(s, v) ==> u == v)
    && (forall u, v :: u in s.users && v in s.users && s.users[u].username == s.users[v].username ==> u == v)
  }

  /** Without a code an account comes about only as the first of all, an administrator; its registration ends either way. */
  lemma FirstAccountOnly(s: State, u: UserId, effect: bool)
    ensures Enabled(s, LookingForUsers(u)) ==>
      Step(s, LookingForUsers(u)) == Advance(s, u, if s.users == map[] then NoUsersSeen else Refused)
    ensures Enabled(s, LookErred(u)) ==> Step(s, LookErred(u)) == Advance(s, u, Refused)
    ensures Enabled(s, BootstrapInserting(u)) ==>
      var t := Step(s, BootstrapInserting(u));
      && (Stands(t, u, Registered) <==> s.users == map[]) && (!Stands(t, u, Registered) ==> Stands(t, u, Refused))
      && t.users == (if s.users == map[] then map[u := Account(s.registrations[u].username, true)] else s.users)
      && t.codes == s.codes
    ensures Enabled(s, BootstrapErred(u, effect)) ==>
      var t := Step(s, BootstrapErred(u, effect));
      && Stands(t, u, Refused) && t.codes == s.codes
      && t.users == (if effect && s.users == map[] then map[u := Account(s.registrations[u].username, true)] else s.users)
  {
  }

  /** By a claimed code an account comes about exactly when nobody has the username; it is no administrator. */
  lemma ClaimantsAccount(s: State, u: UserId, effect: bool)
    requires Enabled(s, Inserting(u))
    ensures var name, t := s.registrations[u].username, Step(s, Inserting(u));
      var free := forall v :: v in s.users ==> s.users[v].username != name;
      && (Stands(t, u, Registered) <==> free) && (!free ==> Stands(t, u, InsertFailed))
      && t.users == (if free then s.users[u := Account(name, false)] else s.users) && t.codes == s.codes
    ensures var name, t := s.registrations[u].username, Step(s, InsertErred(u, effect));
      var free := forall v :: v in s.users ==> s.users[v].username != name;
      && Stands(t, u, InsertFailed) && t.codes == s.codes
      && t.users == if free && effect then s.users[u := Account(name, false)] else s.users
  {
  }

  /** An erring claim or release is as good as its effect. */
  lemma ErringCodes(s: State, u: UserId, effect: bool)
    ensures Enabled(s, ClaimErred(u, effect)) ==>
      var t := Step(s, ClaimErred(u, effect));
      && Stands(t, u, Refused) && t.users == s.users
      && t.codes == if effect then Step(s, Claiming(u)).codes else s.codes
    ensures Enabled(s, ReleaseErred(u, effect)) ==>
      var t := Step(s, ReleaseErred(u, effect));
      && Stands(t, u, Refused) && t.users == s.users
      && t.codes == if effect then Step(s, Releasing(u)).codes else s.codes
  {
    hide Unexpired, Outstanding, FreshId, Taken, Redeemable;
  }

  /** A revocation takes an unused code away, and time only passes. */
  lemma CodesRevoked(s: State, h: CodeHash, later: nat)
    ensures Step(s, Revoking(h)) == s.(codes := if h in s.codes && s.codes[h].usedBy == None then s.codes - {h} else s.codes)
    ensures Enabled(s, Ticking(later)) ==> Step(s, Ticking(later)) == s.(now := later)
  {
  }

  /** A claim goes through exactly when the code is there, unused, and has no date or one to come; refused, it changes no code. */
  lemma ClaimsExactly(s: State, u: UserId)
    requires Enabled(s, Claiming(u))
    ensures var h, t := s.registrations[u].code.value, Step(s, Claiming(u));
      && (Stands(t, u, Claimed) <==>
        h in s.codes && s.codes[h].usedBy == None && (s.codes[h].expiresAt == None || s.now < s.codes[h].expiresAt.value))
      && (!Stands(t, u, Claimed) ==> Stands(t, u, Refused) && t.codes == s.codes)
      && (Stands(t, u, Claimed) ==> t.codes == s.codes[h := s.codes[h].(usedBy := Some(u))])
  {
  }

  /** A code is minted exactly when its creator has fewer than twenty that are unused and in date; other codes stay. */
  lemma MintsExactly(s: State, creator: UserId, h: CodeHash, expiresAt: nat)
    requires Enabled(s, Minting(creator, h, expiresAt))
    ensures var t := Step(s, Minting(creator, h, expiresAt));
      && (h in t.codes <==> |Outstanding(s, creator)| < 20)
      && (h in t.codes ==> t.codes == s.codes[h := Code(creator, Some(expiresAt), None)])
      && (h !in t.codes ==> t == s)
    ensures forall g :: g in Outstanding(s, creator) <==>
      && g in s.codes && s.codes[g].createdBy == creator && s.codes[g].usedBy == None
      && (s.codes[g].expiresAt == None || s.now < s.codes[g].expiresAt.value)
  {
  }

  /** A code marked with an id stays so, unless that registration releases it. */
  lemma UsedCodeStays(s: State, e: Event, h: CodeHash, v: UserId)
    requires Enabled(s, e) && h in s.codes && s.codes[h].usedBy == Some(v) && !Releases(e, v)
    ensures h in Step(s, e).codes && Step(s, e).codes[h].usedBy == Some(v)
  {
    hide Outstanding, Taken, Unexpired;
  }

  /** Nobody but the registration itself touches its progress or creates its account. */
  lemma OthersLeaveAlone(s: State, e: Event, v: UserId)
    requires Enabled(s, e) && v in s.registrations && !About(e, v)
    ensures v in Step(s, e).registrations && Step(s, e).registrations[v] == s.registrations[v]
    ensures v in Step(s, e).users <==> v in s.users
  {
    OthersLeaveRegistration(s, e, v);
    OthersLeaveUser(s, e, v);
    hide Step;
  }

  lemma OthersLeaveRegistration(s: State, e: Event, v: UserId)
    requires Enabled(s, e) && v in s.registrations && !About(e, v)
    ensures v in Step(s, e).registrations && Step(s, e).registrations[v] == s.registrations[v]
  {
    hide Outstanding, Taken, Unexpired, Redeemable, FreshId;
  }

  lemma OthersLeaveUser(s: State, e: Event, v: UserId)
    requires Enabled(s, e) && !About(e, v)
    ensures v in Step(s, e).users <==> v in s.users
    ensures v in s.users ==> Step(s, e).users[v] == s.users[v]
  {
    hide Outstanding, Taken, Unexpired, Redeemable, FreshId;
  }

  predicate About(e: Event, v: UserId) {
    !e.Minting? && !e.Revoking? && !e.Ticking? && e.u == v
  }

  lemma OwnStep(s: State, e: Event, v: UserId)
    requires Enabled(s, e) && About(e, v)
    requires v in s.registrations ==> RegistrationOk(s, v)
    ensures v in Step(s, e).registrations && RegistrationOk(Step(s, e), v)
  {
    hide Outstanding, Taken, Unexpired;
  }

  lemma StepKeepsRegistration(s: State, e: Event, v: UserId)
    requires Inv(s) && Enabled(s, e) && v in Step(s, e).registrations
    ensures RegistrationOk(Step(s, e), v)
  {
    assert v in s.registrations ==> RegistrationOk(s, v);
    if About(e, v) {
      OwnStep(s, e, v);
    } else {
      OnlyOwnRegistration(s, e, v);
      hide Inv, Step, Enabled;
      OthersLeaveAlone(s, e, v);
      if s.registrations[v].code.Some? {
        OthersLeaveMark(s, e, s.registrations[v].code.value, v);
      }
    }
  }

  lemma OnlyOwnRegistration(s: State, e: Event, v: UserId)
    requires Enabled(s, e) && v in Step(s, e).registrations && !About(e, v)
    ensures v in s.registrations
  {
    hide Outstanding, Taken, Redeemable;
  }

  predicate ByInvite(e: Event) {
    e.Inserting? || e.InsertErred?
  }

  /** An account is new only where its own registration inserted it. */
  lemma NewAccount(s: State, e: Event, u: UserId)
    requires Enabled(s, e) && u in Step(s, e).users && u !in s.users
    ensures About(e, u) && u in s.registrations && u in Step(s, e).registrations
    ensures ByInvite(e) || s.users == map[]
    ensures ByInvite(e) ==> !Taken(s, Step(s, e).users[u].username)
    ensures Step(s, e).users == s.users[u := Step(s, e).users[u]]
  {
    hide Outstanding, Redeemable;
  }

  lemma OldAccount(s: State, e: Event, u: UserId)
    requires Inv(s) && Enabled(s, e) && u in s.users
    ensures u in Step(s, e).users && Step(s, e).users[u] == s.users[u]
    ensures u in Step(s, e).registrations && Step(s, e).registrations[u].code == s.registrations[u].code
  {
    assert RegistrationOk(s, u);
    hide Inv;
    if About(e, u) {
      OwnAccount(s, e, u);
    } else {
      OthersLeaveAlone(s, e, u);
      OthersLeaveUser(s, e, u);
    }
    hide Step;
  }

  lemma OwnAccount(s: State, e: Event, u: UserId)
    requires Enabled(s, e) && About(e, u) && u in s.users && u in s.registrations && RegistrationOk(s, u)
    ensures u in Step(s, e).users && Step(s, e).users[u] == s.users[u]
    ensures u in Step(s, e).registrations && Step(s, e).registrations[u].code == s.registrations[u].code
  {
    hide Outstanding, Redeemable, Taken, Owns;
  }

  lemma StepKeepsUsers(s: State, e: Event, u: UserId, v: UserId)
    requires Inv(s) && Enabled(s, e)
    requires u in Step(s, e).users && v in Step(s, e).users
    ensures u in Step(s, e).registrations
    ensures Bootstrap(Step(s, e), u) && Bootstrap(Step(s, e), v) ==> u == v
    ensures Step(s, e).users[u].username == Step(s, e).users[v].username ==> u == v
  {
    hide Step, RegistrationOk, Outstanding, Redeemable;
    if u in s.users { OldAccount(s, e, u); } else { NewAccount(s, e, u); assert RegistrationOk(s, u); }
    if v in s.users { OldAccount(s, e, v); } else { NewAccount(s, e, v); assert RegistrationOk(s, v); }
    if ByInvite(e) && (u !in s.users || v !in s.users) {
      CodeStays(s, e);
    } else if u in s.users && v in s.users {
      assert Bootstrap(Step(s, e), u) && Bootstrap(Step(s, e), v) ==> Bootstrap(s, u) && Bootstrap(s, v);
    }
  }

  lemma CodeStays(s: State, e: Event)
    requires Enabled(s, e) && ByInvite(e) && RegistrationOk(s, e.u)
    ensures Step(s, e).registrations[e.u].code.Some?
  {
  }

  lemma StepKeepsInv(s: State, e: Event)
    requires Inv(s) && Enabled(s, e)
    ensures Inv(Step(s, e))
  {
    var t := Step(s, e);
    forall u | u in t.registrations ensures RegistrationOk(t, u) {
      StepKeepsRegistration(s, e, u);
    }
    forall u, v | u in t.users && v in t.users
      ensures u in t.registrations
      ensures Bootstrap(t, u) && Bootstrap(t, v) ==> u == v
      ensures t.users[u].username == t.users[v].username ==> u == v
    {
      StepKeepsUsers(s, e, u, v);
    }
    hide RegistrationOk, Step;
  }

  // ----- Every run

  lemma {:induction false} ReachableInv(run: seq<State>, events: seq<Event>, n: nat)
    requires IsRun(run, events) && n < |run|
    ensures Inv(run[n])
    decreases n
  {
    hide Step;
    if n > 0 {
      ReachableInv(run, events, n - 1);
      StepKeepsInv(run[n - 1], events[n - 1]);
      hide Inv;
    }
  }

  /** What a registration by invite has come to, given whether its INSERT was misreported and its code released. */
  ghost predicate Told(s: State, u: UserId, misreported: bool, released: bool) {
    if u !in s.registrations then !misreported && !released
    else if s.registrations[u].code.None? then true
    else
      && (released ==> s.registrations[u].progress.Refused? && !Owns(s, u))
      && (u in s.users && !released ==> Owns(s, u))
      && (misreported <==> u in s.users && !s.registrations[u].progress.Registered?)
  }

  lemma StepTells(s: State, e: Event, u: UserId, misreported: bool, released: bool)
    requires Inv(s) && Enabled(s, e) && Told(s, u, misreported, released)
    ensures Told(Step(s, e), u, misreported || Misreports(s, e, u), released || Releases(e, u))
  {
    assert u in s.registrations ==> RegistrationOk(s, u);
    hide Inv;
    if About(e, u) {
      OwnStepTells(s, e, u, misreported, released);
    } else if u in s.registrations {
      OthersLeaveAlone(s, e, u);
      if s.registrations[u].code.Some? {
        OthersLeaveMark(s, e, s.registrations[u].code.value, u);
      }
      hide Step;
    } else if u in Step(s, e).registrations {
      OnlyOwnRegistration(s, e, u);
    }
  }

  lemma OwnStepTells(s: State, e: Event, u: UserId, misreported: bool, released: bool)
    requires Enabled(s, e) && About(e, u) && Told(s, u, misreported, released)
    requires u in s.registrations ==> RegistrationOk(s, u)
    ensures Told(Step(s, e), u, misreported || Misreports(s, e, u), released || Releases(e, u))
  {
    hide Outstanding, Taken, Unexpired;
  }

  /** Nobody else marks a code with this id, or takes the mark away. */
  lemma OthersLeaveMark(s: State, e: Event, h: CodeHash, u: UserId)
    requires Enabled(s, e) && !About(e, u)
    ensures h in Step(s, e).codes && Step(s, e).codes[h].usedBy == Some(u) <==> h in s.codes && s.codes[h].usedBy == Some(u)
  {
    hide Outstanding, Taken, Unexpired;
  }

  lemma {:induction false} RunTells(run: seq<State>, events: seq<Event>, n: nat, u: UserId)
    requires IsRun(run, events) && n < |run|
    ensures Told(run[n], u, Misreported(run, events, n, u), Released(events, n, u))
    decreases n
  {
    hide Step, Inv, Told, Misreports, Releases;
    if n == 0 {
      ToldAtFirst(run[0], u);
    } else {
      RunTells(run, events, n - 1, u);
      ReachableInv(run, events, n - 1);
      StepTells(run[n - 1], events[n - 1], u, Misreported(run, events, n - 1, u), Released(events, n - 1, u));
      assert Misreported(run, events, n, u) <==> Misreported(run, events, n - 1, u) || Misreports(run[n - 1], events[n - 1], u);
      assert Released(events, n, u) <==> Released(events, n - 1, u) || Releases(events[n - 1], u);
    }
  }

  lemma ToldAtFirst(s: State, u: UserId)
    requires s.registrations == map[]
    ensures Told(s, u, false, false)
  {
  }

  /**
   A registration by invite has an account whose code is not its own exactly when its INSERT took effect and reported
   an error, and its release then took effect.
   */
  lemma LosesItsCodeExactly(run: seq<State>, events: seq<Event>, n: nat, u: UserId)
    requires IsRun(run, events) && n < |run| && HasCode(run[n], u)
    ensures u in run[n].users && !Owns(run[n], u) <==> Misreported(run, events, n, u) && Released(events, n, u)
  {
    RunTells(run, events, n, u);
    ReachableInv(run, events, n);
    InvGives(run[n]);
    hide Inv, Misreported, Released;
  }

  /**
   Of two accounts one came by invite and their usernames differ. An account by invite has its own code, marked with
   its id, unless it lost it; two accounts that lost none never share one.
   */
  lemma EveryAccountHasItsOwnCode(run: seq<State>, events: seq<Event>, n: nat, u: UserId, v: UserId)
    requires IsRun(run, events) && n < |run| && u in run[n].users && v in run[n].users && u != v
    ensures u in run[n].registrations && v in run[n].registrations
    ensures run[n].users[u].username != run[n].users[v].username
    ensures run[n].registrations[u].code.Some? || run[n].registrations[v].code.Some?
    ensures HasCode(run[n], u) && !(Misreported(run, events, n, u) && Released(events, n, u)) ==> Owns(run[n], u)
    ensures !(Misreported(run, events, n, u) && Released(events, n, u)) && !(Misreported(run, events, n, v) && Released(events, n, v)) ==>
      run[n].registrations[u].code != run[n].registrations[v].code
  {
    ReachableInv(run, events, n);
    assert Bootstrap(run[n], u) && Bootstrap(run[n], v) ==> u == v;
    if HasCode(run[n], u) {
      LosesItsCodeExactly(run, events, n, u);
    }
    if HasCode(run[n], v) {
      LosesItsCodeExactly(run, events, n, v);
    }
    hide Misreported, Released;
  }

  /** Once a registration by invite has succeeded, its code is never released, revoked or given to another. */
  lemma {:induction false} CodeIsSpentForGood(run: seq<State>, events: seq<Event>, m: nat, n: nat, u: UserId)
    requires IsRun(run, events) && m <= n < |run|
    requires Stands(run[m], u, Registered) && run[m].registrations[u].code.Some?
    ensures Stands(run[n], u, Registered) && run[n].registrations[u] == run[m].registrations[u] && Owns(run[n], u)
    ensures u in run[n].users
    decreases n
  {
    hide Step, Inv, Outstanding;
    ReachableInv(run, events, n);
    InvGives(run[n]);
    if m < n {
      CodeIsSpentForGood(run, events, m, n - 1, u);
      RegisteredIsFinal(run[n - 1], events[n - 1], u);
    }
  }

  lemma InvGives(s: State)
    requires Inv(s)
    ensures forall u :: u in s.registrations ==> RegistrationOk(s, u)
  {
  }

  lemma RegisteredIsFinal(s: State, e: Event, u: UserId)
    requires Enabled(s, e) && Stands(s, u, Registered)
    ensures Stands(Step(s, e), u, Registered) && Step(s, e).registrations[u] == s.registrations[u]
  {
    if !About(e, u) {
      OthersLeaveAlone(s, e, u);
    }
  }

  // ----- What the statements do not promise

  /** An INSERT that took effect and reported an error leaves an account, and its code free for another. */
  lemma MisreportedInsertFreesTheCode(s: State, u: UserId)
    requires Inv(s) && Stands(s, u, Claimed) && !Taken(s, s.registrations[u].username)
    ensures Enabled(s, InsertErred(u, true)) && Enabled(Step(s, InsertErred(u, true)), Releasing(u))
    ensures var h, t := s.registrations[u].code.value, Step(Step(s, InsertErred(u, true)), Releasing(u));
      u in t.users && h in t.codes && t.codes[h].usedBy == None
  {
    hide Outstanding, Taken;
    assert RegistrationOk(s, u);
  }

  /** A release always frees the code, which is an account's exactly when the registration has one by then. */
  lemma ReleaseFreesExactly(s: State, u: UserId)
    requires Inv(s) && Enabled(s, Releasing(u))
    ensures HasCode(s, u) && Owns(s, u)
    ensures var h, t := s.registrations[u].code.value, Step(s, Releasing(u));
      && h in t.codes && t.codes[h].usedBy == None
      && (u in t.users && !Owns(t, u) <==> u in s.users)
      && (Redeemable(t, h) <==> Unexpired(s.codes[h], s.now))
  {
    hide Outstanding, Taken;
    assert RegistrationOk(s, u);
  }

  /** Minting keeps an account within its quota of outstanding codes, when it was within it. */
  lemma MintKeepsQuota(s: State, creator: UserId, h: CodeHash, expiresAt: nat, who: UserId)
    requires Enabled(s, Minting(creator, h, expiresAt)) && |Outstanding(s, who)| <= MAX_UNUSED_INVITES_PER_USER
    ensures |Outstanding(Step(s, Minting(creator, h, expiresAt)), who)| <= MAX_UNUSED_INVITES_PER_USER
  {
    var t := Step(s, Minting(creator, h, expiresAt));
    if t != s {
      assert Outstanding(t, who) <= Outstanding(s, who) + if who == creator then {h} else {};
      Subset(Outstanding(t, who), Outstanding(s, who) + if who == creator then {h} else {});
    }
  }

  /** A release exceeds the quota exactly when the creator has a full set and the released code is still in date. */
  lemma ReleaseMayExceedQuota(s: State, u: UserId)
    requires Inv(s) && Enabled(s, Releasing(u))
    ensures var c, t := s.codes[s.registrations[u].code.value], Step(s, Releasing(u));
      |Outstanding(t, c.createdBy)| > MAX_UNUSED_INVITES_PER_USER <==>
        |Outstanding(s, c.createdBy)| + (if Unexpired(c, s.now) then 1 else 0) > MAX_UNUSED_INVITES_PER_USER
  {
    assert RegistrationOk(s, u);
    ReleaseCounts(s, u);
  }

  /**
   With a full set, claim one of the codes, mint another in its place, and let the INSERT fail: the release
   takes the creator over the quota.
   */
  lemma FailedInsertExceedsQuota(s: State, u: UserId, h: CodeHash, expiresAt: nat, fails: Event)
    requires Stands(s, u, Started) && HasCode(s, u) && Redeemable(s, s.registrations[u].code.value)
    requires h !in s.codes && s.now < expiresAt
    requires fails == InsertErred(u, false) || (fails == Inserting(u) && Taken(s, s.registrations[u].username))
    requires |Outstanding(s, s.codes[s.registrations[u].code.value].createdBy)| == MAX_UNUSED_INVITES_PER_USER
    ensures var creator := s.codes[s.registrations[u].code.value].createdBy;
      && Enabled(s, Claiming(u))
      && var claimed := Step(s, Claiming(u));
      && Enabled(claimed, Minting(creator, h, expiresAt))
      && var minted := Step(claimed, Minting(creator, h, expiresAt));
      && Enabled(minted, fails)
      && Enabled(Step(minted, fails), Releasing(u))
      && |Outstanding(Step(Step(minted, fails), Releasing(u)), creator)| == MAX_UNUSED_INVITES_PER_USER + 1
  {
    hide Outstanding, FreshId;
    var own := s.registrations[u].code.value;
    var creator := s.codes[own].createdBy;
    var claimed := Step(s, Claiming(u));
    ClaimCounts(s, u);
    var minted := Step(claimed, Minting(creator, h, expiresAt));
    MintCounts(claimed, creator, h, expiresAt);
    FailCounts(minted, u, fails);
    var failed := Step(minted, fails);
    assert failed.codes == s.codes[own := s.codes[own].(usedBy := Some(u))][h := Code(creator, Some(expiresAt), None)];
    assert Enabled(failed, Releasing(u));
    assert Outstanding(failed, creator) == Outstanding(minted, creator) by {
      SameOutstanding(failed, minted, creator);
    }
    ReleaseCounts(failed, u);
  }

  lemma SameOutstanding(s: State, t: State, creator: UserId)
    requires s.codes == t.codes && s.now == t.now
    ensures Outstanding(s, creator) == Outstanding(t, creator)
  {
  }

  lemma ClaimCounts(s: State, u: UserId)
    requires Enabled(s, Claiming(u)) && Redeemable(s, s.registrations[u].code.value)
    ensures var h := s.registrations[u].code.value;
      var t, creator := Step(s, Claiming(u)), s.codes[h].createdBy;
      && t == Advance(SetUsedBy(s, h, Some(u)), u, Claimed)
      && |Outstanding(t, creator)| == |Outstanding(s, creator)| - 1
  {
    var h := s.registrations[u].code.value;
    var t, creator := Step(s, Claiming(u)), s.codes[h].createdBy;
    assert Outstanding(t, creator) == Outstanding(s, creator) - {h};
  }

  lemma MintCounts(s: State, creator: UserId, h: CodeHash, expiresAt: nat)
    requires h !in s.codes && s.now < expiresAt && |Outstanding(s, creator)| < MAX_UNUSED_INVITES_PER_USER
    ensures var t := Step(s, Minting(creator, h, expiresAt));
      && t == s.(codes := s.codes[h := Code(creator, Some(expiresAt), None)])
      && |Outstanding(t, creator)| == |Outstanding(s, creator)| + 1
  {
    var t := Step(s, Minting(creator, h, expiresAt));
    assert Outstanding(t, creator) == Outstanding(s, creator) + {h};
  }

  lemma FailCounts(s: State, u: UserId, fails: Event)
    requires Stands(s, u, Claimed)
    requires fails == InsertErred(u, false) || (fails == Inserting(u) && Taken(s, s.registrations[u].username))
    ensures Enabled(s, fails) && Step(s, fails) == Advance(s, u, InsertFailed)
  {
    hide Taken;
  }

  /** A release puts the code back among its creator's, if it is still in date. */
  lemma ReleaseCounts(s: State, u: UserId)
    requires Enabled(s, Releasing(u)) && Owns(s, u)
    ensures var c := s.codes[s.registrations[u].code.value];
      |Outstanding(Step(s, Releasing(u)), c.createdBy)| == |Outstanding(s, c.createdBy)| + if Unexpired(c, s.now) then 1 else 0
  {
    hide Taken, FreshId;
    var h := s.registrations[u].code.value;
    var c, t := s.codes[h], Step(s, Releasing(u));
    assert t.codes == s.codes[h := c.(usedBy := None)] && t.now == s.now;
    assert Outstanding(t, c.createdBy) == Outstanding(s, c.createdBy) + if Unexpired(c, s.now) then {h} else {};
    assert h !in Outstanding(s, c.createdBy);
  }

  /** `n` codes of one creator that never expire. */
  function Stock(n: nat, creator: UserId): map<CodeHash, Code> {
    if n == 0 then map[] else Stock(n - 1, creator)[CodeHash(seq(n, _ => '0')) := Code(creator, None, None)]
  }

  lemma {:induction false} StockIsFull(n: nat, creator: UserId)
    ensures |Stock(n, creator)| == n
    ensures forall h :: h in Stock(n, creator) ==> |h.hex| <= n && Stock(n, creator)[h] == Code(creator, None, None)
  {
    if n > 0 {
      StockIsFull(n - 1, creator);
      var h := CodeHash(seq(n, _ => '0'));
      assert |h.hex| == n && h !in Stock(n - 1, creator);
    }
  }

  /** And so it happens: twenty codes, one of them claimed and replaced, an INSERT that fails, and there are twenty-one. */
  lemma QuotaIsExceeded(creator: UserId, u: UserId, username: string) returns (run: seq<State>, events: seq<Event>)
    ensures IsRun(run, events) && |events| == 5
    ensures |Outstanding(run[0], creator)| == MAX_UNUSED_INVITES_PER_USER
    ensures |Outstanding(run[5], creator)| == MAX_UNUSED_INVITES_PER_USER + 1
  {
    hide Outstanding, Step, Enabled, Stock, Redeemable, Stands;
    StockIsFull(20, creator);
    assert CodeHash(seq(20, _ => '0')) in Stock(20, creator) by { StockHas(20, creator); }
    var own, h := CodeHash(seq(20, _ => '0')), CodeHash(seq(21, _ => '0'));
    assert |h.hex| == 21 && h !in Stock(20, creator);
    var s := State(map[], Stock(20, creator), map[], 0);
    Starts(s, u, username, own);
    var t := Step(s, Registering(u, username, Some(own)));
    AllOutstanding(s, creator);
    SameOutstanding(s, t, creator);
    FailedInsertExceedsQuota(t, u, h, 1, InsertErred(u, false));
    var claimed := Step(t, Claiming(u));
    var minted := Step(claimed, Minting(creator, h, 1));
    var failed := Step(minted, InsertErred(u, false));
    events := [Registering(u, username, Some(own)), Claiming(u), Minting(creator, h, 1), InsertErred(u, false), Releasing(u)];
    run := [s, t, claimed, minted, failed, Step(failed, Releasing(u))];
  }

  lemma StockHas(n: nat, creator: UserId)
    requires n > 0
    ensures CodeHash(seq(n, _ => '0')) in Stock(n, creator)
  {
  }

  lemma Starts(s: State, u: UserId, username: string, h: CodeHash)
    requires s.registrations == map[] && s.users == map[] && h in s.codes && s.codes[h].expiresAt.None?
    requires forall g :: g in s.codes ==> s.codes[g].usedBy.None?
    ensures Enabled(s, Registering(u, username, Some(h)))
    ensures var t := Step(s, Registering(u, username, Some(h)));
      && t.codes == s.codes && t.now == s.now
      && Stands(t, u, Started) && t.registrations[u].code == Some(h) && Redeemable(t, h)
  {
  }

  lemma AllOutstanding(s: State, creator: UserId)
    requires forall h :: h in s.codes ==> s.codes[h] == Code(creator, None, None)
    ensures |Outstanding(s, creator)| == |s.codes|
  {
    assert Outstanding(s, creator) == s.codes.Keys;
  }

  // ----- The code, with everybody else at every await

  class AuthStore {
    var users: map<UserId, Account>
    var codes: map<CodeHash, Code>
    var registrations: map<UserId, Registration>
    var now: nat

    ghost function View(): State
      reads this
    {
      State(users, codes, registrations, now)
    }

    constructor (codes: map<CodeHash, Code>, now: nat)
      ensures View() == State(map[], codes, map[], now) && Inv(View())
    {
      this.codes, this.now := codes, now;
      users, registrations := map[], map[];
    }

    /** One atomic statement. */
    method Do(e: Event)
      requires Inv(View()) && Enabled(View(), e)
      modifies this
      ensures Inv(View()) && View() == Step(old(View()), e)
    {
      hide Inv, Enabled, Step;
      StepKeepsInv(View(), e);
      var t := Step(State(users, codes, registrations, now), e);
      users, codes, registrations, now := t.users, t.codes, t.registrations, t.now;
    }

    /** An await of the registration: unless `calm`, others execute any number of statements. */
    method Others(u: UserId, calm: bool)
      requires Inv(View()) && u in registrations
      modifies this
      ensures Inv(View())
      ensures u in registrations && registrations[u] == old(registrations[u])
      ensures u in users <==> u in old(users)
      ensures HasCode(View(), u) ==> (Owns(View(), u) <==> old(Owns(View(), u)))
      ensures calm ==> View() == old(View())
    {
      hide Inv, Enabled, Step;
      if calm {
        return;
      }
      var events: seq<Event> := *;
      for k := 0 to |events|
        invariant Inv(View())
        invariant u in registrations && registrations[u] == old(registrations[u])
        invariant u in users <==> u in old(users)
        invariant HasCode(View(), u) ==> (Owns(View(), u) <==> old(Owns(View(), u)))
      {
        var e := events[k];
        if Enabled(State(users, codes, registrations, now), e) && !About(e, u) {
          OthersLeaveAlone(View(), e, u);
          if registrations[u].code.Some? {
            OthersLeaveMark(View(), e, registrations[u].code.value, u);
          }
          Do(e);
        }
      }
    }

    /**
     registerUser. Success is reported only with an account: an administrator if it was the first of all, and otherwise
     one whose code is marked with its id. Without success there is an account only if its INSERT was misreported, and a
     code marked with the id only if a statement erred. Undisturbed and without errors it succeeds exactly when there is no
     account yet, or the code can be redeemed and the username is free; when it fails no account and no code changes.
     */
    method RegisterUser(u: UserId, username: string, code: Option<CodeHash>, calm: bool)
      returns (ok: bool, ghost misreported: bool, ghost erred: bool)
      requires Inv(View()) && FreshId(View(), u)
      modifies this
      ensures Inv(View())
      ensures u in registrations && registrations[u].code == code && registrations[u].username == username
      ensures u in users <==> ok || misreported
      ensures misreported ==> !ok && erred
      ensures ok ==> users[u] == Account(username, code.None?)
      ensures ok && code.Some? ==> Owns(View(), u)
      ensures !ok ==> registrations[u].progress == Refused
      ensures !ok && !erred && code.Some? ==> !Owns(View(), u)
      ensures calm ==> !erred
      ensures calm && code.None? ==> (ok <==> old(users) == map[]) && codes == old(codes)
      ensures calm && code.Some? ==> (ok <==> Redeemable(old(View()), code.value) && !Taken(old(View()), username))
      ensures calm && ok && code.Some? ==>
        && users == old(users)[u := Account(username, false)]
        && codes == old(codes)[code.value := old(codes)[code.value].(usedBy := Some(u))]
      ensures calm && !ok ==> users == old(users) && codes == old(codes)
    {
      hide Inv, RegistrationOk, Claim, Release, Outstanding, Taken, Redeemable;
      ghost var before := View();
      Do(Registering(u, username, code));
      SameStatements(before, View());
      Others(u, calm);
      if code.None? {
        ok, misreported, erred := Bootstrap(u, calm);
      } else {
        ok, misreported, erred := Redeem(u, calm);
      }
      Settled(View(), u);
    }

    /** The first account of all needs no code. */
    method Bootstrap(u: UserId, calm: bool) returns (ok: bool, ghost misreported: bool, ghost erred: bool)
      requires Inv(View()) && Stands(View(), u, Started) && !HasCode(View(), u) && u !in users
      modifies this
      ensures Inv(View()) && Stands(View(), u, if ok then Registered else Refused)
      ensures SameRegistrant(registrations[u], old(registrations[u]))
      ensures u in users <==> ok || misreported
      ensures misreported ==> !ok && erred
      ensures ok ==> users[u] == Account(registrations[u].username, true)
      ensures calm ==> !erred && (ok <==> old(users) == map[]) && codes == old(codes) && (!ok ==> users == old(users))
    {
      hide Inv, Claim, Release, Taken, Outstanding;
      var errs, effect: bool := *, *;
      errs := errs && !calm;
      Do(if errs then LookErred(u) else LookingForUsers(u));
      if registrations[u].progress == NoUsersSeen {
        Others(u, calm);
        errs := *;
        errs := errs && !calm;
        Do(if errs then BootstrapErred(u, effect) else BootstrapInserting(u));
      }
      ok := registrations[u].progress == Registered;
      misreported, erred := !ok && u in users, errs;
    }

    /** Claim the code, insert the account, and give the code back if that fails. */
    method Redeem(u: UserId, calm: bool) returns (ok: bool, ghost misreported: bool, ghost erred: bool)
      requires Inv(View()) && Stands(View(), u, Started) && HasCode(View(), u) && u !in users && !Owns(View(), u)
      modifies this
      ensures Inv(View()) && Stands(View(), u, if ok then Registered else Refused)
      ensures SameRegistrant(registrations[u], old(registrations[u]))
      ensures u in users <==> ok || misreported
      ensures misreported ==> !ok && erred
      ensures ok ==> users[u] == Account(registrations[u].username, false)
      ensures !ok && !erred ==> !Owns(View(), u)
      ensures var h, name := old(registrations[u].code.value), old(registrations[u].username);
        calm ==>
          && !erred && (ok <==> Redeemable(old(View()), h) && !Taken(old(View()), name))
          && (ok ==> users == old(users)[u := Account(name, false)])
          && (ok ==> codes == old(codes)[h := old(codes)[h].(usedBy := Some(u))])
          && (!ok ==> users == old(users) && codes == old(codes))
    {
      hide Inv, Owns, Taken;
      ghost var before, h := View(), registrations[u].code.value;
      var claimed;
      claimed, erred := ClaimCode(u, calm);
      ok, misreported := false, false;
      if claimed {
        if calm {
          SameNames(before, View());
        }
        Others(u, calm);
        ok, misreported := InsertAccount(u, calm);
        if !ok {
          Others(u, calm);
          ghost var errs := GiveBack(u, calm);
          erred := misreported || errs;
          assert calm ==> codes == before.codes[h := before.codes[h].(usedBy := Some(u))][h := before.codes[h]];
        }
      }
    }

    method ClaimCode(u: UserId, calm: bool) returns (claimed: bool, ghost erred: bool)
      requires Inv(View()) && Stands(View(), u, Started) && HasCode(View(), u) && u !in users && !Owns(View(), u)
      modifies this
      ensures Inv(View()) && Stands(View(), u, if claimed then Claimed else Refused)
      ensures SameRegistrant(registrations[u], old(registrations[u])) && u !in users
      ensures !claimed && !erred ==> !Owns(View(), u)
      ensures claimed ==> !erred
      ensures var h := old(registrations[u].code.value);
        calm ==>
          && !erred && (claimed <==> Redeemable(old(View()), h)) && users == old(users)
          && (claimed ==> codes == old(codes)[h := old(codes)[h].(usedBy := Some(u))])
          && (!claimed ==> codes == old(codes))
    {
      hide Inv;
      var errs, effect: bool := *, *;
      errs := errs && !calm;
      Do(if errs then ClaimErred(u, effect) else Claiming(u));
      claimed, erred := registrations[u].progress == Claimed, errs;
    }

    method InsertAccount(u: UserId, calm: bool) returns (ok: bool, ghost misreported: bool)
      requires Inv(View()) && Stands(View(), u, Claimed) && HasCode(View(), u) && u !in users
      modifies this
      ensures Inv(View()) && Stands(View(), u, if ok then Registered else InsertFailed)
      ensures SameRegistrant(registrations[u], old(registrations[u]))
      ensures u in users <==> ok || misreported
      ensures misreported ==> !ok
      ensures ok ==> users[u] == Account(registrations[u].username, false)
      ensures calm ==>
        && !misreported && codes == old(codes) && (ok <==> !Taken(old(View()), old(registrations[u].username)))
        && users == if ok then old(users)[u := Account(old(registrations[u].username), false)] else old(users)
    {
      hide Inv, Taken;
      var errs, effect: bool := *, *;
      errs := errs && !calm;
      Do(if errs then InsertErred(u, effect) else Inserting(u));
      ok := registrations[u].progress == Registered;
      misreported := !ok && u in users;
    }

    method GiveBack(u: UserId, calm: bool) returns (ghost erred: bool)
      requires Inv(View()) && Stands(View(), u, InsertFailed) && HasCode(View(), u)
      modifies this
      ensures Inv(View()) && Stands(View(), u, Refused) && users == old(users)
      ensures SameRegistrant(registrations[u], old(registrations[u]))
      ensures !erred ==> !Owns(View(), u)
      ensures calm ==> !erred && codes == old(Freed(View(), u))
    {
      hide Inv;
      var errs, effect: bool := *, *;
      errs := errs && !calm;
      Do(if errs then ReleaseErred(u, effect) else Releasing(u));
      erred := errs;
    }
  }

  /** The codes with the registration's own unmarked. */
  function Freed(s: State, u: UserId): map<CodeHash, Code>
    requires HasCode(s, u)
  {
    var h := s.registrations[u].code.value;
    if h in s.codes && s.codes[h].usedBy == Some(u) then s.codes[h := s.codes[h].(usedBy := None)] else s.codes
  }

  lemma SameNames(s: State, t: State)
    requires s.users == t.users
    ensures forall name :: Taken(s, name) <==> Taken(t, name)
  {
  }

  lemma SameStatements(s: State, t: State)
    requires s.users == t.users && s.codes == t.codes && s.now == t.now
    ensures forall name :: Taken(s, name) <==> Taken(t, name)
    ensures forall h :: Redeemable(s, h) <==> Redeemable(t, h)
  {
  }

  predicate SameRegistrant(a: Registration, b: Registration) {
    a.username == b.username && a.code == b.code
  }

  lemma Settled(s: State, u: UserId)
    requires Inv(s) && u in s.registrations
    ensures s.registrations[u].progress.Registered? ==> u in s.users
    ensures s.registrations[u].progress.Registered? && s.registrations[u].code.Some? ==> Owns(s, u)
  {
    assert RegistrationOk(s, u);
  }
}
