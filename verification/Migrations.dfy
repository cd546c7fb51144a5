/**
 The schema migrations of backend/src/db.ts: a ledger loop over statements sent one by one, any of which
 may fail, with or without having taken effect, and end the boot.

 A relation has its columns with their declarations, and how many rows it holds; of the rows only what version 10
 reads and writes of users is modelled. Constraints of several columns and foreign keys are not part of this model.
 Boots do not overlap.
 */
module Migrations {
  import opened Wrappers

  datatype Table =
    | Users | Sessions | InviteCodes | PortMappings | Templates | UserGroups | UserGroupMembers | ObserveLog
    | SessionConfigs | PushSubscriptions | ClaudeConversations | ConversationUserMeta

  datatype Column = Column(name: string)

  datatype Index =
    | SessionsUser | InviteCodesCreator | PortMappingsSession | TemplatesOwner | UserGroupsLead | GroupMembersUser
    | ObserveLogSession | ObserveLogObserver | PushSubscriptionsUser | ClaudeConvSt

  datatype Type = Text | Integer | Typed(name: string)

  /** A column's declaration. */
  datatype Decl = Decl(typ: Type, primary: bool, unique: bool, notNull: bool, value: Option<string>)

  const KEY := Decl(Text, true, false, false, None)
  const TEXT := Decl(Text, false, false, false, None)
  const REQUIRED := Decl(Text, false, false, true, None)
  const UNIQUE := Decl(Text, false, true, true, None)
  const NOW := Decl(Text, false, false, true, Some("datetime('now')"))
  const INT := Decl(Integer, false, false, false, None)
  const NUMBER := Decl(Integer, false, false, true, None)
  const MODE := Decl(Text, false, false, true, Some("'observe'"))
  const ZERO := Decl(Integer, false, false, true, Some("0"))

  datatype Relation = Relation(columns: map<Column, Decl>, rows: nat)

  /** A row of users; ids and dates are compared as texts, of which only the order counts. */
  datatype Account = Account(createdAt: nat, isAdmin: bool)

  type Accounts = map<nat, Account>

  datatype Db = Db(tables: map<Table, Relation>, indexes: set<Index>, ledger: set<nat>, accounts: Accounts)

  datatype Def = Def(name: string, decl: Decl)

  /** The columns of each CREATE TABLE. */
  function Defs(t: Table): seq<Def> {
    match t
    case Users =>
      [Def("id", KEY), Def("username", UNIQUE), Def("password_hash", REQUIRED), Def("created_at", NOW),
       Def("is_admin", ZERO)]
    case Sessions =>
      [Def("session_id", KEY), Def("user_id", REQUIRED), Def("name", REQUIRED),
       Def("status", REQUIRED.(value := Some("'running'"))), Def("container_id", TEXT),
       Def("container_name", REQUIRED), Def("cols", NUMBER.(value := Some("120"))),
       Def("rows", NUMBER.(value := Some("36"))), Def("env_vars", REQUIRED.(value := Some("'{}'"))),
       Def("created_at", NOW), Def("last_connected_at", TEXT), Def("bootstrap_log", TEXT)]
    case InviteCodes =>
      [Def("code_hash", KEY), Def("code_prefix", REQUIRED), Def("created_by", REQUIRED), Def("created_at", NOW),
       Def("used_by", TEXT), Def("used_at", TEXT), Def("expires_at", TEXT)]
    case PortMappings =>
      [Def("session_id", REQUIRED), Def("container_port", NUMBER), Def("host_port", NUMBER), Def("is_public", ZERO)]
    case Templates =>
      [Def("id", KEY), Def("owner_user_id", REQUIRED), Def("name", REQUIRED), Def("description", TEXT),
       Def("config", REQUIRED), Def("created_at", NOW), Def("updated_at", NOW)]
    case UserGroups =>
      [Def("id", KEY), Def("name", REQUIRED), Def("description", TEXT), Def("lead_user_id", REQUIRED),
       Def("created_at", NOW), Def("updated_at", NOW)]
    case UserGroupMembers =>
      [Def("group_id", REQUIRED), Def("user_id", REQUIRED), Def("added_at", NOW)]
    case ObserveLog =>
      [Def("id", KEY), Def("observer_user_id", REQUIRED), Def("session_id", REQUIRED), Def("owner_user_id", REQUIRED),
       Def("started_at", NOW), Def("ended_at", TEXT)]
    case SessionConfigs =>
      [Def("session_id", KEY), Def("workspace_strategy", TEXT), Def("cpu_limit", INT), Def("mem_limit", INT),
       Def("idle_ttl_seconds", INT), Def("post_create_cmd", TEXT), Def("post_start_cmd", TEXT),
       Def("repos_json", TEXT), Def("ports_json", TEXT), Def("allow_privileged_ports", INT),
       Def("env_vars_json", TEXT), Def("auth_json", TEXT), Def("git_identity_json", TEXT), Def("dotfiles_json", TEXT),
       Def("agent_seed_json", TEXT), Def("write_env_file", INT), Def("bootstrapped_at", TEXT), Def("created_at", NOW)]
    case PushSubscriptions =>
      [Def("id", KEY), Def("user_id", REQUIRED), Def("endpoint", UNIQUE), Def("p256dh", REQUIRED),
       Def("auth", REQUIRED), Def("created_at", NOW)]
    case ClaudeConversations =>
      [Def("session_id", KEY), Def("st_session_id", REQUIRED), Def("kind", REQUIRED), Def("parent_session_id", TEXT),
       Def("parent_inferred", ZERO), Def("title", TEXT), Def("tab_id", TEXT), Def("pane_id", TEXT),
       Def("status", REQUIRED), Def("status_evidence", REQUIRED), Def("status_at", REQUIRED),
       Def("started_at", REQUIRED), Def("ended_at", TEXT), Def("end_reason", TEXT), Def("last_event_at", REQUIRED),
       Def("last_prompt_id", TEXT), Def("last_seq", ZERO), Def("claude_version", TEXT), Def("events_bytes", ZERO),
       Def("events_count", ZERO), Def("gaps_count", ZERO)]
    case ConversationUserMeta =>
      [Def("st_session_id", REQUIRED), Def("cid", REQUIRED), Def("custom_title", TEXT), Def("archived_at", TEXT),
       Def("updated_at", REQUIRED)]
  }

  function Layout(defs: seq<Def>): map<Column, Decl> {
    if defs == [] then map[] else Layout(defs[1..])[Column(defs[0].name) := defs[0].decl]
  }

  function Made(t: Table): map<Column, Decl> {
    Layout(Defs(t))
  }

  function Shape(t: Table): set<Column> {
    Made(t).Keys
  }

  lemma {:induction false} InLayout(defs: seq<Def>, n: nat)
    requires n < |defs|
    ensures Column(defs[n].name) in Layout(defs)
  {
    if n > 0 {
      InLayout(defs[1..], n - 1);
    }
  }

  lemma NamedInShape(t: Table, n: nat)
    requires n < |Defs(t)|
    ensures Column(Defs(t)[n].name) in Shape(t)
  {
    hide Defs;
    InLayout(Defs(t), n);
  }

  datatype Statement =
    | Create(t: Table)
    | CreateIndex(x: Index, t: Table)
    | Add(t: Table, c: Column, decl: Decl)
    | Promote(t: Table)

  function IndexTable(x: Index): Table {
    match x
    case SessionsUser => Sessions
    case InviteCodesCreator => InviteCodes
    case PortMappingsSession => PortMappings
    case TemplatesOwner => Templates
    case UserGroupsLead => UserGroups
    case GroupMembersUser => UserGroupMembers
    case ObserveLogSession => ObserveLog
    case ObserveLogObserver => ObserveLog
    case PushSubscriptionsUser => PushSubscriptions
    case ClaudeConvSt => ClaudeConversations
  }

  /** The columns an index is on. */
  function IndexColumns(x: Index): set<Column> {
    match x
    case SessionsUser => {Column("user_id"), Column("status")}
    case InviteCodesCreator => {Column("created_by")}
    case PortMappingsSession => {Column("session_id")}
    case TemplatesOwner => {Column("owner_user_id")}
    case UserGroupsLead => {Column("lead_user_id")}
    case GroupMembersUser => {Column("user_id")}
    case ObserveLogSession => {Column("session_id")}
    case ObserveLogObserver => {Column("observer_user_id")}
    case PushSubscriptionsUser => {Column("user_id")}
    case ClaudeConvSt => {Column("st_session_id"), Column("last_event_at")}
  }

  /** The columns a statement needs its table to have. */
  function Needs(s: Statement): set<Column> {
    match s
    case CreateIndex(x, _) => IndexColumns(x)
    case Promote(_) => {Column("id"), Column("is_admin"), Column("created_at")}
    case _ => {}
  }

  const LAST := 18
  const REBUILD := 11
  const INVITES_INDEX := InviteCodesCreator

  function Baseline(): seq<Statement> {
    [
      Create(Users), Create(Sessions), CreateIndex(SessionsUser, Sessions),
      Create(InviteCodes), CreateIndex(INVITES_INDEX, InviteCodes),
      Create(PortMappings), CreateIndex(PortMappingsSession, PortMappings),
      Create(Templates), CreateIndex(TemplatesOwner, Templates),
      Create(UserGroups), CreateIndex(UserGroupsLead, UserGroups),
      Create(UserGroupMembers), CreateIndex(GroupMembersUser, UserGroupMembers),
      Create(ObserveLog), CreateIndex(ObserveLogSession, ObserveLog),
      CreateIndex(ObserveLogObserver, ObserveLog), Create(SessionConfigs)]
  }

  /** The statements of each migration, in order; version 10 updates rows and version 11 is a program of its own. */
  function Statements(v: nat): seq<Statement> {
    match v
    case 1 => Baseline()
    case 2 => [Add(InviteCodes, Column("expires_at"), TEXT)]
    case 3 => [Add(Users, Column("is_admin"), ZERO)]
    case 4 => [Add(SessionConfigs, Column("auth_json"), TEXT)]
    case 5 => [Add(SessionConfigs, Column("git_identity_json"), TEXT), Add(SessionConfigs, Column("dotfiles_json"), TEXT),
               Add(SessionConfigs, Column("agent_seed_json"), TEXT)]
    case 6 => [Add(PortMappings, Column("is_public"), ZERO)]
    case 7 => [Add(SessionConfigs, Column("allow_privileged_ports"), INT)]
    case 8 => [Add(Sessions, Column("bootstrap_log"), TEXT)]
    case 9 => [Add(SessionConfigs, Column("write_env_file"), INT)]
    case 10 => [Promote(Users)]
    case 12 => [Add(Users, Column("max_sessions"), INT), Add(Users, Column("max_total_cpu"), INT), Add(Users, Column("max_total_mem"), INT)]
    case 13 => [Add(ObserveLog, Column("mode"), MODE)]
    case 14 => [Create(PushSubscriptions), CreateIndex(PushSubscriptionsUser, PushSubscriptions)]
    case 15 => [Add(Sessions, Column("external_ref"), TEXT)]
    case 16 => [Create(ClaudeConversations), CreateIndex(ClaudeConvSt, ClaudeConversations),
                Add(Sessions, Column("ingest_token_hash"), TEXT), Add(Sessions, Column("ingest_token_hash_suspended"), TEXT),
                Add(Sessions, Column("conversation_requested"), ZERO)]
    case 17 => [Add(Sessions, Column("revocation_seq"), ZERO)]
    case 18 => [Create(ConversationUserMeta)]
    case _ => []
  }

  /** The migration that creates the table. */
  function CreatedBy(t: Table): nat {
    match t
    case PushSubscriptions => 14
    case ClaudeConversations => 16
    case ConversationUserMeta => 18
    case _ => 1
  }

  function AddsIn(ss: seq<Statement>, t: Table): set<Column> {
    if ss == [] then {}
    else AddsIn(ss[1..], t) + (if ss[0].Add? && ss[0].t == t then {ss[0].c} else {})
  }

  /** The columns the first `v` migrations add to the table. */
  function AddedUpTo(t: Table, v: nat): set<Column> {
    if v == 0 then {} else AddedUpTo(t, v - 1) + AddsIn(Statements(v), t)
  }

  function Added(t: Table): set<Column> {
    AddedUpTo(t, LAST)
  }

  /** A table is created, and its columns are added, in this order; invite_codes gets none the rebuild lacks. */
  ghost predicate InOrder(v: nat, n: nat)
    requires n < |Statements(v)|
  {
    match Statements(v)[n]
    case Create(t) => CreatedBy(t) == v
    case CreateIndex(x, t) =>
      && t == IndexTable(x)
      && (CreatedBy(t) < v || (CreatedBy(t) == v && exists m :: 0 <= m < n && Statements(v)[m] == Create(t)))
    case Promote(t) => CreatedBy(t) < v && t == Users && v == 10
    case Add(t, c, _) => CreatedBy(t) < v && (t == InviteCodes ==> v < REBUILD && c in Shape(InviteCodes) && c == Column("expires_at"))
  }

  lemma AllInOrder(v: nat, n: nat)
    requires n < |Statements(v)|
    ensures InOrder(v, n)
  {
    hide Made;
    if v == 1 {
      BaselineInOrder(n);
      hide Statements;
    } else if v <= 8 {
      EarlyInOrder(v, n);
      hide Statements, InOrder;
    } else {
      hide Baseline, Defs;
      if (v == 14 || v == 16) && n == 1 {
        assert Statements(v)[0] == Create(Statements(v)[1].t);
      }
    }
  }

  lemma EarlyInOrder(v: nat, n: nat)
    requires 1 < v <= 8 && n < |Statements(v)|
    ensures InOrder(v, n)
  {
    NamedInShape(InviteCodes, 6);
    hide Baseline, Defs, Made;
  }

  lemma BaselineInOrder(n: nat)
    requires n < |Baseline()|
    ensures InOrder(1, n)
  {
    assert Statements(1) == Baseline();
    if Baseline()[n].CreateIndex? {
      assert Baseline()[n - 1] == Create(Baseline()[n].t) || Baseline()[n - 2] == Create(Baseline()[n].t);
    }
  }

  lemma EveryTableIsCreated(t: Table)
    ensures Create(t) in Statements(CreatedBy(t))
  {
    if CreatedBy(t) == 1 {
      BaselineCreates();
    } else {
      assert Statements(CreatedBy(t))[0] == Create(t);
    }
    hide Baseline;
  }

  lemma BaselineCreates()
    ensures forall t :: CreatedBy(t) == 1 ==> Create(t) in Baseline()
  {
    var b := Baseline();
    assert b[0] == Create(Users) && b[1] == Create(Sessions) && b[3] == Create(InviteCodes) && b[5] == Create(PortMappings);
    assert b[7] == Create(Templates) && b[9] == Create(UserGroups) && b[11] == Create(UserGroupMembers);
    assert b[13] == Create(ObserveLog) && b[16] == Create(SessionConfigs);
  }

  // ----- Accounts

  const IS_ADMIN := Column("is_admin")

  /** The order of ORDER BY created_at, id. */
  predicate Earlier(m: Accounts, i: nat, j: nat)
    requires i in m && j in m
  {
    m[i].createdAt < m[j].createdAt || (m[i].createdAt == m[j].createdAt && i <= j)
  }

  predicate Earliest(m: Accounts, i: nat) {
    i in m && forall j :: j in m ==> Earlier(m, i, j)
  }

  lemma {:induction false} EarliestExists(m: Accounts)
    requires m != map[]
    ensures exists i :: Earliest(m, i)
    decreases |m|
  {
    var k :| k in m;
    var rest := m - {k};
    if rest == map[] {
      assert forall j :: j in m ==> j == k || j in rest;
      assert Earliest(m, k);
    } else {
      EarliestExists(rest);
      var i :| Earliest(rest, i);
      assert forall j :: j in m ==> j == k || (j in rest && m[j] == rest[j]);
      assert Earliest(m, if Earlier(m, i, k) then i else k);
    }
  }

  predicate HasAdmin(m: Accounts) {
    exists i :: i in m && m[i].isAdmin
  }

  /** UPDATE users SET is_admin = 1 WHERE nobody has it and the account is the earliest. */
  function Promoted(m: Accounts): Accounts {
    if m == map[] || HasAdmin(m) then m
    else
      EarliestExists(m);
      var i :| Earliest(m, i);
      m[i := m[i].(isAdmin := true)]
  }

  /** A new is_admin column gives every row its default. */
  function Plain(m: Accounts): Accounts {
    map i | i in m :: m[i].(isAdmin := false)
  }

  /** A column that is new makes nobody an administrator. */
  lemma PlainHasNone(m: Accounts)
    ensures !HasAdmin(Plain(m)) && Plain(m).Keys == m.Keys && forall i :: i in m ==> Plain(m)[i].createdAt == m[i].createdAt
  {
  }

  /**
   A promotion changes nothing but one flag. It is the earliest account's, exactly when there are accounts and none is an
   administrator; afterwards one is, and a second promotion changes nothing.
   */
  lemma PromotesTheEarliest(m: Accounts)
    ensures var p := Promoted(m);
      && p.Keys == m.Keys && (forall i :: i in m ==> p[i].createdAt == m[i].createdAt)
      && (forall i :: i in m ==> (p[i].isAdmin <==> m[i].isAdmin || (!HasAdmin(m) && Earliest(m, i))))
      && (m != map[] ==> HasAdmin(p)) && Promoted(p) == p
  {
    var p := Promoted(m);
    if m != map[] && !HasAdmin(m) {
      EarliestExists(m);
      var i :| Earliest(m, i);
      assert p[i].isAdmin;
    }
  }

  // ----- Statements

  /**
   What a statement does, or None for an error the boot ends with. CREATE is IF NOT EXISTS, and an index is only looked
   for once its table is found; adding a column that is there is skipped (version 12 and 13) or its error is
   swallowed (all others).
   */
  function Exec(d: Db, s: Statement): Option<Db> {
    match s
    case Create(t) =>
      Some(if t in d.tables then d
           else d.(tables := d.tables[t := Relation(Made(t), 0)], accounts := if t == Users then map[] else d.accounts))
    case CreateIndex(x, t) => if CanServe(d, s) then Some(d.(indexes := d.indexes + {x})) else None
    case Promote(_) => if CanServe(d, s) then Some(d.(accounts := Promoted(d.accounts))) else None
    case Add(t, c, decl) =>
      if t !in d.tables then None
      else if c in d.tables[t].columns then Some(d)
      else Some(d.(tables := d.tables[t := d.tables[t].(columns := d.tables[t].columns[c := decl])],
                   accounts := if t == Users && c == IS_ADMIN then Plain(d.accounts) else d.accounts))
  }

  /** The table is there with the columns the statement needs, or the index exists already. */
  predicate CanServe(d: Db, s: Statement) {
    s.t in d.tables && ((s.CreateIndex? && s.x in d.indexes) || Needs(s) <= d.tables[s.t].columns.Keys)
  }

  predicate OldShape(columns: set<Column>) {
    Column("code") in columns && Column("code_hash") !in columns
  }

  /** DROP TABLE takes the indexes of the table with it. */
  function DropInvites(d: Db): Db {
    d.(tables := d.tables - {InviteCodes}, indexes := d.indexes - {INVITES_INDEX})
  }

  // ----- Where a database is going

  /** Migrating gives the table afresh: it is missing, or it is an empty invite_codes of the old shape. */
  predicate Renewed(d: Db, t: Table) {
    t !in d.tables || (t == InviteCodes && OldShape(d.tables[t].columns.Keys) && d.tables[t].rows == 0)
  }

  /** How a migration declares a column it adds. */
  function DeclOf(c: Column): Decl {
    if c.name in ["is_admin", "is_public", "conversation_requested", "revocation_seq"] then ZERO
    else if c.name in ["allow_privileged_ports", "write_env_file", "max_sessions", "max_total_cpu", "max_total_mem"] then INT
    else if c.name == "mode" then MODE
    else TEXT
  }

  function Declared(cs: set<Column>): map<Column, Decl> {
    map c | c in cs :: DeclOf(c)
  }

  /** The table once every migration has run, told from the database as it is: it keeps the declarations it has. */
  function FinalOf(d: Db, t: Table): Relation {
    if Renewed(d, t) then Relation(Declared(Added(t)) + Made(t), 0)
    else d.tables[t].(columns := Declared(Added(t)) + d.tables[t].columns)
  }

  /** The accounts as version 10 finds them: none without the table, and no administrators without the column. */
  function AccountsIn(d: Db): Accounts {
    if Users !in d.tables then map[] else if IS_ADMIN in d.tables[Users].columns then d.accounts else Plain(d.accounts)
  }

  function FinalAccounts(d: Db): Accounts {
    if 10 in d.ledger then AccountsIn(d) else Promoted(AccountsIn(d))
  }

  ghost predicate SameFinal(d: Db, e: Db) {
    FinalAccounts(d) == FinalAccounts(e) && forall t :: FinalOf(d, t) == FinalOf(e, t)
  }

  /** invite_codes in a shape the rebuild refuses. */
  predicate Refused(d: Db) {
    InviteCodes in d.tables && OldShape(d.tables[InviteCodes].columns.Keys) && d.tables[InviteCodes].rows > 0
  }

  /** The statement meets a table without the columns it needs, which no earlier migration adds. */
  ghost predicate Lacks(d: Db, v: nat, n: nat)
    requires v > 0 && n < |Statements(v)|
  {
    var s := Statements(v)[n];
    && (s.CreateIndex? || s.Promote?)
    && s.t in d.tables
    && !(s.CreateIndex? && s.x in d.indexes)
    && !(Needs(s) <= d.tables[s.t].columns.Keys + AddedUpTo(s.t, v - 1))
  }

  /** A statement still to be run lacks its columns. */
  ghost predicate Blocked(d: Db) {
    exists v, n :: 1 <= v <= LAST && v !in d.ledger && 0 <= n < |Statements(v)| && Lacks(d, v, n)
  }

  /** A database on which every boot stops: a sessions table without the columns of its index. */
  lemma OldSessionsBlock(columns: map<Column, Decl>, rows: nat, accounts: Accounts)
    requires Column("user_id") !in columns || Column("status") !in columns
    ensures var d := Db(map[Sessions := Relation(columns, rows)], {}, {}, accounts); At(d, 0) && Blocked(d) && !Refused(d)
  {
    var d := Db(map[Sessions := Relation(columns, rows)], {}, {}, accounts);
    assert Statements(1)[2] == CreateIndex(SessionsUser, Sessions);
    assert Lacks(d, 1, 2);
  }

  // ----- The ledger

  /** What a recorded statement leaves; invite_codes and its index may be gone while it is rebuilt. */
  ghost predicate Holds(d: Db, s: Statement) {
    match s
    case Create(t) => t in d.tables || t == InviteCodes
    case CreateIndex(x, _) => x in d.indexes || x == INVITES_INDEX
    case Promote(_) => true
    case Add(t, c, _) => if t in d.tables then c in d.tables[t].columns.Keys else t == InviteCodes
  }

  ghost predicate Recorded(d: Db, k: nat) {
    forall v, n :: 1 <= v <= k && 0 <= n < |Statements(v)| ==> Holds(d, Statements(v)[n])
  }

  function UpTo(k: nat): (s: set<nat>)
    ensures forall v :: v in s <==> 1 <= v <= k
  {
    if k == 0 then {} else UpTo(k - 1) + {k}
  }

  /** The ledger holds the first `k` versions, and what they did is there. */
  ghost predicate At(d: Db, k: nat) {
    && k <= LAST && d.ledger == UpTo(k)
    && Recorded(d, k)
    && (1 <= k < REBUILD - 1 ==> InviteCodes in d.tables)
    && (REBUILD <= k ==> InviteCodes in d.tables && !OldShape(d.tables[InviteCodes].columns.Keys))
  }

  // ----- One statement

  lemma AddsAreIn(ss: seq<Statement>, n: nat)
    requires n < |ss| && ss[n].Add?
    ensures ss[n].c in AddsIn(ss, ss[n].t)
  {
    if n > 0 {
      AddsAreIn(ss[1..], n - 1);
    }
  }

  lemma {:induction false} AddedMonotone(t: Table, u: nat, v: nat)
    requires u <= v
    ensures AddedUpTo(t, u) <= AddedUpTo(t, v)
    decreases v
  {
    hide Statements;
    if u < v {
      AddedMonotone(t, u, v - 1);
    }
  }

  lemma AddIsAdded(v: nat, n: nat)
    requires 1 <= v <= LAST && n < |Statements(v)| && Statements(v)[n].Add?
    ensures Statements(v)[n].c in Added(Statements(v)[n].t)
  {
    hide Statements;
    AddsAreIn(Statements(v), n);
    AddedMonotone(Statements(v)[n].t, v, LAST);
  }

  ghost predicate Extends(m: map<Column, Decl>, n: map<Column, Decl>) {
    forall c :: c in m ==> c in n && n[c] == m[c]
  }

  /** Tables appear in their first shape, or gain columns; the shape test of invite_codes does not notice. */
  ghost predicate Grew(d: Db, e: Db) {
    && e.ledger == d.ledger && d.indexes <= e.indexes
    && (forall t :: t in d.tables ==> t in e.tables && Extends(d.tables[t].columns, e.tables[t].columns))
    && (Users in d.tables && IS_ADMIN in d.tables[Users].columns ==> e.accounts == d.accounts || e.accounts == Promoted(d.accounts))
    && (InviteCodes in d.tables ==> OldShape(d.tables[InviteCodes].columns.Keys) == OldShape(e.tables[InviteCodes].columns.Keys))
  }

  lemma GrewKeepsHolds(d: Db, e: Db, s: Statement)
    requires Grew(d, e) && Holds(d, s)
    requires InviteCodes in e.tables && InviteCodes !in d.tables ==> s.Add? && s.t == InviteCodes ==> s.c in e.tables[InviteCodes].columns.Keys
    ensures Holds(e, s)
  {
  }

  lemma ExecGrows(d: Db, v: nat, n: nat, e: Db)
    requires n < |Statements(v)| && Exec(d, Statements(v)[n]) == Some(e)
    ensures Grew(d, e)
    ensures forall t :: t in e.tables && t !in d.tables ==> e.tables[t] == Relation(Made(t), 0)
  {
    hide Statements, Grew, Exec, CreatedBy;
    AllInOrder(v, n);
    StatementGrows(d, Statements(v)[n], e);
  }

  lemma StatementGrows(d: Db, s: Statement, e: Db)
    requires Exec(d, s) == Some(e) && (s.Add? && s.t == InviteCodes ==> s.c == Column("expires_at"))
    ensures Grew(d, e)
    ensures forall t :: t in e.tables && t !in d.tables ==> e.tables[t] == Relation(Made(t), 0)
  {
    hide Made, Promoted, CanServe;
  }

  lemma ExecKeepsAt(d: Db, k: nat, n: nat, e: Db)
    requires At(d, k) && k < LAST && n < |Statements(k + 1)| && Exec(d, Statements(k + 1)[n]) == Some(e)
    ensures At(e, k)
  {
    hide Exec, Made, CreatedBy;
    ExecGrows(d, k + 1, n, e);
    NewInvites();
    forall v, m | 1 <= v <= k && 0 <= m < |Statements(v)| ensures Holds(e, Statements(v)[m]) {
      AllInOrder(v, m);
      GrewKeepsHolds(d, e, Statements(v)[m]);
    }
    AllInOrder(k + 1, n);
    hide Statements, OldShape;
  }

  lemma NewInvites()
    ensures !OldShape(Shape(InviteCodes)) && Column("expires_at") in Shape(InviteCodes)
  {
    assert "expires_at" in ["code_hash", "code_prefix", "created_by", "created_at", "used_by", "used_at", "expires_at"];
  }

  lemma ExecKeepsFinal(d: Db, s: Statement, e: Db, t: Table)
    requires Exec(d, s) == Some(e) && Grew(d, e)
    requires s.Add? ==> s.c in Added(s.t) && s.decl == DeclOf(s.c)
    requires !OldShape(Shape(InviteCodes))
    ensures FinalOf(d, t) == FinalOf(e, t)
  {
    hide Made, Added, OldShape, DeclOf, Exec;
    Touches(d, s, e, t);
    if s.Add? && s.t == t && t in d.tables && s.c !in d.tables[t].columns {
      assert Declared(Added(t)) + e.tables[t].columns == Declared(Added(t)) + d.tables[t].columns;
    }
  }

  /** What a statement does to a table. */
  lemma Touches(d: Db, s: Statement, e: Db, t: Table)
    requires Exec(d, s) == Some(e)
    ensures
      if s.Create? && s.t == t && t !in d.tables then t in e.tables && e.tables[t] == Relation(Made(t), 0)
      else if s.Add? && s.t == t && t in d.tables && s.c !in d.tables[t].columns then
        t in e.tables && e.tables[t] == d.tables[t].(columns := d.tables[t].columns[s.c := s.decl])
      else (t in e.tables <==> t in d.tables) && (t in d.tables ==> e.tables[t] == d.tables[t])
  {
    hide Made, Promoted, CanServe;
  }

  /** Migrations that add a column declare it as DeclOf says, so two that add the same one agree. */
  lemma AddsDeclare(v: nat, n: nat)
    requires n < |Statements(v)| && Statements(v)[n].Add?
    ensures Statements(v)[n].decl == DeclOf(Statements(v)[n].c)
  {
    if v == 1 {
      AllInOrder(1, n);
      hide Statements;
    } else if v <= 8 {
      EarlyAddsDeclare(v, n);
      hide Statements;
    }
    hide Baseline;
  }

  lemma EarlyAddsDeclare(v: nat, n: nat)
    requires 1 < v <= 8 && n < |Statements(v)| && Statements(v)[n].Add?
    ensures Statements(v)[n].decl == DeclOf(Statements(v)[n].c)
  {
    hide Baseline;
  }

  /** Only a statement of a version not yet recorded runs, so the promotion never runs on promoted accounts for nothing. */
  lemma ExecKeepsAccounts(d: Db, s: Statement, e: Db)
    requires Exec(d, s) == Some(e) && (s.Promote? ==> s.t == Users && 10 !in d.ledger)
    ensures FinalAccounts(d) == FinalAccounts(e)
  {
    PromotesTheEarliest(d.accounts);
    hide Made, Promoted, HasAdmin, Earliest;
    if s.Create? && s.t == Users {
      assert AccountsIn(e) == AccountsIn(d);
    }
  }

  // ----- Whole boots

  /** Where the database is going, its rows, and whether the rebuild refuses it. */
  ghost predicate Kept(d: Db, e: Db) {
    && SameFinal(d, e)
    && (Refused(d) <==> Refused(e))
    && forall t :: t in d.tables && d.tables[t].rows > 0 ==>
      t in e.tables && Extends(d.tables[t].columns, e.tables[t].columns) && e.tables[t].rows == d.tables[t].rows
  }

  lemma KeptTransitive(d: Db, e: Db, f: Db)
    requires Kept(d, e) && Kept(e, f)
    ensures Kept(d, f)
  {
    hide FinalOf, Refused;
  }

  lemma ExecKeeps(d: Db, v: nat, n: nat, e: Db)
    requires 1 <= v <= LAST && v !in d.ledger && n < |Statements(v)| && Exec(d, Statements(v)[n]) == Some(e)
    ensures Kept(d, e)
  {
    hide Statements, Made, Promoted, Added, OldShape, FinalOf, FinalAccounts, DeclOf, CreatedBy, Exec;
    ExecGrows(d, v, n, e);
    NewInvites();
    AllInOrder(v, n);
    if Statements(v)[n].Add? {
      AddIsAdded(v, n);
      AddsDeclare(v, n);
    }
    forall t ensures FinalOf(d, t) == FinalOf(e, t) {
      ExecKeepsFinal(d, Statements(v)[n], e, t);
    }
    ExecKeepsAccounts(d, Statements(v)[n], e);
    StatementKeepsRows(d, Statements(v)[n], e);
  }

  lemma StatementKeepsRows(d: Db, s: Statement, e: Db)
    requires Exec(d, s) == Some(e)
    ensures forall t :: t in d.tables ==> t in e.tables && e.tables[t].rows == d.tables[t].rows
    ensures InviteCodes in e.tables && InviteCodes !in d.tables ==> e.tables[InviteCodes].rows == 0
  {
    hide Made, Promoted, CanServe;
  }

  /** A version is recorded once its statements have run. */
  lemma LedgerKeeps(d: Db, v: nat)
    requires AllDid(d, Statements(v))
    ensures Kept(d, d.(ledger := d.ledger + {v}))
  {
    hide Added, Made, Promoted, DeclOf;
    if v == 10 {
      assert Statements(10)[0] == Promote(Users) && Did(d, Statements(10)[0]);
    }
    hide Statements;
  }

  /** The rebuild drops only a table that is missing or empty. */
  lemma DropKeeps(d: Db)
    requires Renewed(d, InviteCodes)
    ensures Kept(d, DropInvites(d))
  {
    hide Added, Made, Promoted;
  }

  lemma CreateInvitesKeeps(d: Db)
    requires InviteCodes !in d.tables
    ensures Kept(d, Exec(d, Create(InviteCodes)).value)
  {
    NewInvites();
    hide Added, Made, Promoted, OldShape;
  }

  /** What a statement has just done. */
  ghost predicate Did(d: Db, s: Statement) {
    match s
    case Create(t) => t in d.tables
    case CreateIndex(x, _) => x in d.indexes
    case Promote(t) =>
      t in d.tables && Needs(s) <= d.tables[t].columns.Keys && (t == Users ==> d.accounts == Promoted(d.accounts))
    case Add(t, c, _) => t in d.tables && c in d.tables[t].columns.Keys
  }

  ghost predicate AllDid(d: Db, ss: seq<Statement>) {
    forall n :: 0 <= n < |ss| ==> Did(d, ss[n])
  }

  lemma RecordAt(d: Db, k: nat, ss: seq<Statement>)
    requires At(d, k) && k < LAST && ss == Statements(k + 1) && AllDid(d, ss)
    requires k + 1 == REBUILD ==> InviteCodes in d.tables && !OldShape(d.tables[InviteCodes].columns.Keys)
    ensures At(d.(ledger := d.ledger + {k + 1}), k + 1)
  {
    if k == 0 {
      EveryTableIsCreated(InviteCodes);
    }
    hide Statements, OldShape;
  }

  lemma RebuildKeepsAt(d: Db)
    requires At(d, REBUILD - 1)
    ensures At(DropInvites(d), REBUILD - 1)
    ensures At(Exec(d, Create(InviteCodes)).value, REBUILD - 1)
    ensures At(d.(indexes := d.indexes + {INVITES_INDEX}), REBUILD - 1)
  {
    hide Statements, OldShape, Made, Promoted, Holds, CreatedBy;
    var e := Exec(d, Create(InviteCodes)).value;
    forall v, m | 1 <= v <= REBUILD - 1 && 0 <= m < |Statements(v)|
      ensures Holds(DropInvites(d), Statements(v)[m]) && Holds(e, Statements(v)[m])
      ensures Holds(d.(indexes := d.indexes + {INVITES_INDEX}), Statements(v)[m])
    {
      AllInOrder(v, m);
      RebuildHolds(d, Statements(v)[m]);
    }
  }

  lemma RebuildHolds(d: Db, s: Statement)
    requires Holds(d, s)
    requires match s
      case CreateIndex(x, t) => t == IndexTable(x)
      case Add(t, c, _) => t == InviteCodes ==> c in Shape(InviteCodes)
      case _ => true
    ensures Holds(DropInvites(d), s) && Holds(Exec(d, Create(InviteCodes)).value, s)
    ensures Holds(d.(indexes := d.indexes + {INVITES_INDEX}), s)
  {
    hide Made, Promoted;
  }

  // ----- Columns a statement lacks

  lemma ShapesServe(v: nat, n: nat)
    requires n < |Statements(v)|
    ensures Needs(Statements(v)[n]) <= if Statements(v)[n].Create? then {} else Shape(Statements(v)[n].t)
  {
    AllInOrder(v, n);
    match Statements(v)[n]
    case CreateIndex(x, _) => IndexInShape(x);
    case Promote(_) => PromoteInShape(v, n);
    case _ =>
  }

  lemma IndexInShape(x: Index)
    ensures IndexColumns(x) <= Shape(IndexTable(x))
  {
    hide Shape, Layout;
    match x
    case SessionsUser =>
      NamedInShape(Sessions, 1);
      NamedInShape(Sessions, 3);
    case InviteCodesCreator => NamedInShape(InviteCodes, 2);
    case PortMappingsSession => NamedInShape(PortMappings, 0);
    case TemplatesOwner => NamedInShape(Templates, 1);
    case UserGroupsLead => NamedInShape(UserGroups, 3);
    case GroupMembersUser => NamedInShape(UserGroupMembers, 1);
    case ObserveLogSession => NamedInShape(ObserveLog, 2);
    case ObserveLogObserver => NamedInShape(ObserveLog, 1);
    case PushSubscriptionsUser => NamedInShape(PushSubscriptions, 1);
    case ClaudeConvSt =>
      NamedInShape(ClaudeConversations, 1);
      NamedInShape(ClaudeConversations, 14);
  }

  lemma PromoteInShape(v: nat, n: nat)
    requires n < |Statements(v)| && Statements(v)[n].Promote?
    ensures Needs(Statements(v)[n]) <= Shape(Statements(v)[n].t)
  {
    OnlyUsersPromoted(v, n);
    hide Statements, Made, Promoted;
    NamedInShape(Users, 0);
    NamedInShape(Users, 3);
    NamedInShape(Users, 4);
  }

  lemma OnlyUsersPromoted(v: nat, n: nat)
    requires n < |Statements(v)| && Statements(v)[n].Promote?
    ensures v == 10 && Statements(v)[n].t == Users
  {
  }

  /** No migration adds a column to a table that another of its statements needs columns of. */
  lemma AddsBeside(v: nat, m: nat, n: nat)
    requires m < |Statements(v)| && n < |Statements(v)| && Statements(v)[m].Add? && !Statements(v)[n].Add?
    ensures Statements(v)[m].t != Statements(v)[n].t
  {
    if v == 1 {
      AllInOrder(1, m);
      hide Statements;
    }
    hide Baseline;
  }

  lemma ExecKeepsLacks(d: Db, k: nat, n: nat, e: Db, v: nat, m: nat)
    requires k < v <= LAST && n < |Statements(k + 1)| && m < |Statements(v)| && Exec(d, Statements(k + 1)[n]) == Some(e)
    ensures Lacks(d, v, m) <==> Lacks(e, v, m)
  {
    hide Statements, Made, Promoted, AddedUpTo, Needs, CreatedBy, IndexTable, Lacks, Exec;
    AllInOrder(k + 1, n);
    AllInOrder(v, m);
    var s, u := Statements(k + 1)[n], Statements(v)[m];
    if u.CreateIndex? || u.Promote? {
      match s
      case Create(_) =>
        ShapesServe(v, m);
        CreateLeaves(d, s, e, v, m);
      case CreateIndex(_, _) => IndexLeaves(d, s, e, v, m);
      case Promote(_) => PromoteLeaves(d, s, e, v, m);
      case Add(_, _, _) =>
        if v == k + 1 {
          AddsBeside(v, n, m);
        } else {
          AddedInTime(k + 1, n, v - 1);
        }
        AddLeaves(d, s, e, v, m);
    } else {
      LacksNothing(d, v, m);
      LacksNothing(e, v, m);
    }
  }

  lemma LacksNothing(d: Db, v: nat, n: nat)
    requires v > 0 && n < |Statements(v)| && !Statements(v)[n].CreateIndex? && !Statements(v)[n].Promote?
    ensures !Lacks(d, v, n)
  {
    hide Statements;
  }

  lemma PromoteLeaves(d: Db, s: Statement, e: Db, v: nat, m: nat)
    requires v > 0 && m < |Statements(v)| && s.Promote? && Exec(d, s) == Some(e)
    ensures Lacks(d, v, m) <==> Lacks(e, v, m)
  {
    hide Statements, AddedUpTo, Needs, Made, Promoted, CanServe;
  }

  lemma CreateLeaves(d: Db, s: Statement, e: Db, v: nat, m: nat)
    requires v > 0 && m < |Statements(v)| && s.Create? && Exec(d, s) == Some(e) && !Statements(v)[m].Create?
    requires Needs(Statements(v)[m]) <= Shape(Statements(v)[m].t)
    ensures Lacks(d, v, m) <==> Lacks(e, v, m)
  {
    hide Statements, AddedUpTo, Needs, Made, Promoted;
  }

  lemma IndexLeaves(d: Db, s: Statement, e: Db, v: nat, m: nat)
    requires v > 0 && m < |Statements(v)| && s.CreateIndex? && s.t == IndexTable(s.x) && Exec(d, s) == Some(e)
    requires Statements(v)[m].CreateIndex? ==> Statements(v)[m].t == IndexTable(Statements(v)[m].x)
    ensures Lacks(d, v, m) <==> Lacks(e, v, m)
  {
    hide Statements, AddedUpTo, IndexTable, IndexColumns;
  }

  lemma AddLeaves(d: Db, s: Statement, e: Db, v: nat, m: nat)
    requires v > 0 && m < |Statements(v)| && s.Add? && Exec(d, s) == Some(e)
    requires s.t == Statements(v)[m].t ==> s.c in AddedUpTo(s.t, v - 1)
    ensures Lacks(d, v, m) <==> Lacks(e, v, m)
  {
    hide Statements, AddedUpTo, Needs;
    var t := Statements(v)[m].t;
    if t in d.tables && s.t == t {
      assert e.tables[t].columns.Keys + AddedUpTo(t, v - 1) == d.tables[t].columns.Keys + AddedUpTo(t, v - 1);
    }
  }

  lemma AddedInTime(v: nat, n: nat, w: nat)
    requires 1 <= v <= w && n < |Statements(v)| && Statements(v)[n].Add?
    ensures Statements(v)[n].c in AddedUpTo(Statements(v)[n].t, w)
  {
    hide Statements;
    AddsAreIn(Statements(v), n);
    AddedMonotone(Statements(v)[n].t, v, w);
  }

  lemma ExecKeepsBlocked(d: Db, k: nat, n: nat, e: Db)
    requires At(d, k) && k < LAST && n < |Statements(k + 1)| && Exec(d, Statements(k + 1)[n]) == Some(e)
    ensures Blocked(d) <==> Blocked(e)
  {
    hide Statements, Recorded, Lacks, OldShape;
    LedgerStays(d, Statements(k + 1)[n], e);
    forall v, m | k < v <= LAST && 0 <= m < |Statements(v)| ensures Lacks(d, v, m) <==> Lacks(e, v, m) {
      ExecKeepsLacks(d, k, n, e, v, m);
    }
  }

  lemma LedgerKeepsBlocked(d: Db, v: nat)
    requires AllDid(d, Statements(v))
    ensures Blocked(d) <==> Blocked(d.(ledger := d.ledger + {v}))
  {
    hide Statements, AddedUpTo, Needs;
    var e := d.(ledger := d.ledger + {v});
    forall w, m | 1 <= w && 0 <= m < |Statements(w)| ensures Lacks(d, w, m) <==> Lacks(e, w, m) && (w == v ==> !Lacks(d, w, m)) {
      assert w == v ==> Did(d, Statements(v)[m]);
    }
    hide Lacks, Did;
  }

  /** Once the baseline is recorded nothing is blocked by invite_codes. */
  lemma InvitesAside(d: Db, e: Db)
    requires 1 in d.ledger && e.ledger == d.ledger
    requires forall t :: t != InviteCodes ==> (t in d.tables <==> t in e.tables) && (t in d.tables ==> d.tables[t] == e.tables[t])
    requires forall x :: x != INVITES_INDEX ==> (x in d.indexes <==> x in e.indexes)
    ensures Blocked(d) <==> Blocked(e)
  {
    hide Statements, AddedUpTo, Needs;
    forall v, m | 2 <= v && 0 <= m < |Statements(v)| ensures Lacks(d, v, m) <==> Lacks(e, v, m) {
      IndexesOfInvites(v, m);
    }
    hide Lacks;
  }

  // ----- A completed run

  lemma AddsInSomewhere(ss: seq<Statement>, t: Table, c: Column) returns (n: nat)
    requires c in AddsIn(ss, t)
    ensures n < |ss| && ss[n].Add? && ss[n].t == t && ss[n].c == c
  {
    if ss[0].Add? && ss[0].t == t && ss[0].c == c {
      n := 0;
    } else {
      n := AddsInSomewhere(ss[1..], t, c);
      n := n + 1;
    }
  }

  lemma {:induction false} AddedAreThere(d: Db, t: Table, v: nat)
    requires Recorded(d, v) && t in d.tables
    ensures AddedUpTo(t, v) <= d.tables[t].columns.Keys
    decreases v
  {
    hide Statements;
    if v > 0 {
      AddedAreThere(d, t, v - 1);
      forall c | c in AddsIn(Statements(v), t) ensures c in d.tables[t].columns.Keys {
        var n := AddsInSomewhere(Statements(v), t, c);
        assert Holds(d, Statements(v)[n]);
      }
    }
  }

  // ----- Old tables and new ones

  lemma {:induction false} AddedSomewhere(t: Table, v: nat, c: Column) returns (w: nat, n: nat)
    requires c in AddedUpTo(t, v)
    ensures 1 <= w <= v && n < |Statements(w)|
    ensures Statements(w)[n].Add? && Statements(w)[n].t == t && Statements(w)[n].c == c
    decreases v
  {
    hide Statements;
    if c in AddedUpTo(t, v - 1) {
      w, n := AddedSomewhere(t, v - 1, c);
    } else {
      w := v;
      n := AddsInSomewhere(Statements(v), t, c);
    }
  }

  /** A column is declared by the first definition of its name. */
  lemma {:induction false} LayoutAt(defs: seq<Def>, n: nat)
    requires n < |defs| && forall i :: 0 <= i < n ==> defs[i].name != defs[n].name
    ensures Column(defs[n].name) in Layout(defs) && Layout(defs)[Column(defs[n].name)] == defs[n].decl
  {
    if n > 0 {
      assert defs[1..][n - 1] == defs[n];
      LayoutAt(defs[1..], n - 1);
    }
  }

  lemma {:induction false} NotInLayout(defs: seq<Def>, name: string)
    requires forall i :: 0 <= i < |defs| ==> defs[i].name != name
    ensures Column(name) !in Layout(defs)
  {
    if defs != [] {
      NotInLayout(defs[1..], name);
    }
  }

  /** The columns that migrations add to a table. */
  function AddedNames(t: Table): seq<string> {
    match t
    case Users => ["is_admin", "max_sessions", "max_total_cpu", "max_total_mem"]
    case InviteCodes => ["expires_at"]
    case PortMappings => ["is_public"]
    case Sessions => ["bootstrap_log", "external_ref", "ingest_token_hash", "ingest_token_hash_suspended",
                      "conversation_requested", "revocation_seq"]
    case ObserveLog => ["mode"]
    case SessionConfigs => ["auth_json", "git_identity_json", "dotfiles_json", "agent_seed_json", "allow_privileged_ports",
                            "write_env_file"]
    case _ => []
  }

  lemma AddsNamed(v: nat, n: nat) returns (k: nat)
    requires n < |Statements(v)| && Statements(v)[n].Add?
    ensures var s := Statements(v)[n]; k < |AddedNames(s.t)| && s.c == Column(AddedNames(s.t)[k])
  {
    if v == 1 {
      AllInOrder(1, n);
    }
    hide Baseline;
    k := match v
      case 5 => 1 + n
      case 7 => 4
      case 9 => 5
      case 12 => 1 + n
      case 15 => 1
      case 16 => n
      case 17 => 5
      case _ => 0;
  }

  /** All of these are added, and no others. */
  lemma AddedAre(t: Table, c: Column)
    ensures c in Added(t) <==> exists k :: 0 <= k < |AddedNames(t)| && c == Column(AddedNames(t)[k])
  {
    if c in Added(t) {
      var v, n := AddedSomewhere(t, LAST, c);
      var _ := AddsNamed(v, n);
    }
    if k :| 0 <= k < |AddedNames(t)| && c == Column(AddedNames(t)[k]) {
      NamedIsAdded(t, k);
    }
    hide Statements, Added, AddedNames;
  }

  lemma NamedIsAdded(t: Table, k: nat)
    requires k < |AddedNames(t)|
    ensures Column(AddedNames(t)[k]) in Added(t)
  {
    hide Added, Baseline;
    match t
    case Users => if k == 0 { StatementAdds(3, 0); } else { StatementAdds(12, k - 1); }
    case InviteCodes => StatementAdds(2, 0);
    case PortMappings => StatementAdds(6, 0);
    case Sessions => SessionsAdded(k);
    case ObserveLog => StatementAdds(13, 0);
    case SessionConfigs => ConfigsAdded(k);
  }

  lemma SessionsAdded(k: nat)
    requires k < 6
    ensures Column(AddedNames(Sessions)[k]) in Added(Sessions)
  {
    hide Added, Baseline;
    if k == 0 { StatementAdds(8, 0); }
    else if k == 1 { StatementAdds(15, 0); }
    else if k < 5 { StatementAdds(16, k); }
    else { StatementAdds(17, 0); }
  }

  lemma ConfigsAdded(k: nat)
    requires k < 6
    ensures Column(AddedNames(SessionConfigs)[k]) in Added(SessionConfigs)
  {
    hide Added, Baseline;
    if k == 0 { StatementAdds(4, 0); }
    else if k < 4 { StatementAdds(5, k - 1); }
    else if k == 4 { StatementAdds(7, 0); }
    else { StatementAdds(9, 0); }
  }

  lemma StatementAdds(v: nat, n: nat)
    requires 1 <= v <= LAST && n < |Statements(v)|
    ensures var s := Statements(v)[n]; s.Add? ==> s.c in Added(s.t)
  {
    if Statements(v)[n].Add? {
      AddIsAdded(v, n);
    }
    hide Statements, Added;
  }

  /** The CREATE TABLE of a column that is also added declares it as the migration does. */
  lemma AddAgrees(t: Table, k: nat)
    requires k < |AddedNames(t)|
    ensures var c := Column(AddedNames(t)[k]); c in Made(t) ==> Made(t)[c] == DeclOf(c)
  {
    hide Layout;
    match t
    case Users => UsersAgree(k);
    case InviteCodes => LayoutAt(Defs(t), 6);
    case PortMappings => LayoutAt(Defs(t), 3);
    case Sessions => SessionsAgree(k);
    case ObserveLog => NotInLayout(Defs(t), "mode");
    case SessionConfigs => ConfigsAgree(k);
  }

  lemma UsersAgree(k: nat)
    requires k < 4
    ensures var c := Column(AddedNames(Users)[k]); c in Made(Users) ==> Made(Users)[c] == DeclOf(c)
  {
    hide Layout;
    if k == 0 {
      LayoutAt(Defs(Users), 4);
    } else {
      NotInLayout(Defs(Users), AddedNames(Users)[k]);
    }
  }

  lemma SessionsAgree(k: nat)
    requires k < 6
    ensures var c := Column(AddedNames(Sessions)[k]); c in Made(Sessions) ==> Made(Sessions)[c] == DeclOf(c)
  {
    hide Layout;
    if k == 0 {
      LayoutAt(Defs(Sessions), 11);
    } else {
      NotInLayout(Defs(Sessions), AddedNames(Sessions)[k]);
    }
  }

  lemma ConfigsAgree(k: nat)
    requires k < 6
    ensures var c := Column(AddedNames(SessionConfigs)[k]); c in Made(SessionConfigs) ==> Made(SessionConfigs)[c] == DeclOf(c)
  {
    hide Layout;
    LayoutAt(Defs(SessionConfigs), if k < 4 then 11 + k else if k == 4 then 9 else 15);
  }

  /**
   A table that was there ends with the columns, and their declarations, of one created today, whatever migrations it
   had seen: when it has the columns that no migration adds, and none other than a table of today has.
   */
  lemma UpgradeIsFresh(d: Db, t: Table)
    requires !Renewed(d, t)
    requires Made(t).Keys - Added(t) <= d.tables[t].columns.Keys
    requires Extends(d.tables[t].columns, Declared(Added(t)) + Made(t))
    ensures FinalOf(d, t).columns == FinalOf(d.(tables := d.tables - {t}), t).columns
  {
    hide Made, Added, DeclOf;
    var now, former := Declared(Added(t)) + Made(t), d.tables[t].columns;
    forall c | c in Added(t) && c in Made(t) ensures Made(t)[c] == DeclOf(c) {
      AddedAgrees(t, c);
    }
    assert Declared(Added(t)) + former == now;
  }

  lemma AddedAgrees(t: Table, c: Column)
    requires c in Added(t) && c in Made(t)
    ensures Made(t)[c] == DeclOf(c)
  {
    hide Statements, Made, DeclOf;
    var v, n := AddedSomewhere(t, LAST, c);
    var k := AddsNamed(v, n);
    AddAgrees(t, k);
  }

  lemma CreatedByBounds(t: Table)
    ensures 1 <= CreatedBy(t) <= LAST
  {
  }

  /** With every version in the ledger the database has arrived. */
  lemma LedgerFullMeansFinal(d: Db, t: Table)
    requires At(d, LAST)
    ensures t in d.tables && d.tables[t] == FinalOf(d, t)
  {
    hide Statements, Made, Promoted, OldShape, AddedUpTo, CreatedBy;
    EveryTableIsCreated(t);
    CreatedByBounds(t);
    var n :| 0 <= n < |Statements(CreatedBy(t))| && Statements(CreatedBy(t))[n] == Create(t);
    assert Holds(d, Statements(CreatedBy(t))[n]);
    AddedAreThere(d, t, LAST);
    assert Declared(Added(t)) + d.tables[t].columns == d.tables[t].columns;
  }

  /** So have its accounts. */
  lemma AccountsArrived(d: Db)
    requires At(d, LAST)
    ensures d.accounts == FinalAccounts(d)
  {
    EveryTableIsCreated(Users);
    assert Statements(3) == [Add(Users, IS_ADMIN, ZERO)];
    hide Statements, Made, Promoted, OldShape;
    var n :| 0 <= n < |Statements(1)| && Statements(1)[n] == Create(Users);
    assert Holds(d, Statements(1)[n]) && Holds(d, Statements(3)[0]);
  }

  lemma DidSurvives(d: Db, e: Db, s: Statement)
    requires Grew(d, e) && Did(d, s)
    ensures Did(e, s)
  {
  }

  lemma LedgerStays(d: Db, s: Statement, e: Db)
    requires Exec(d, s) == Some(e)
    ensures e.ledger == d.ledger
  {
    hide Made, Promoted;
  }

  lemma JustDid(d: Db, s: Statement, e: Db)
    requires Exec(d, s) == Some(e)
    ensures Did(e, s)
  {
    PromotesTheEarliest(d.accounts);
    hide Made, Promoted, HasAdmin, Earliest;
  }

  /** In order, a statement of the next migration meets an error exactly when its table lacks the columns it needs. */
  lemma CanRun(d: Db, k: nat, n: nat, ss: seq<Statement>)
    requires At(d, k) && k < LAST && ss == Statements(k + 1) && n < |ss|
    requires forall m :: 0 <= m < n ==> Did(d, ss[m])
    ensures Exec(d, ss[n]).None? <==> Lacks(d, k + 1, n)
    ensures Lacks(d, k + 1, n) ==> Blocked(d)
  {
    hide Statements, OldShape, Made, Promoted, AddedUpTo, Needs;
    AllInOrder(k + 1, n);
    if !ss[n].Create? && CreatedBy(ss[n].t) <= k {
      EveryTableIsCreated(ss[n].t);
      CreatedByBounds(ss[n].t);
      var m :| 0 <= m < |Statements(CreatedBy(ss[n].t))| && Statements(CreatedBy(ss[n].t))[m] == Create(ss[n].t);
      assert Holds(d, Statements(CreatedBy(ss[n].t))[m]);
      IndexesOfInvites(k + 1, n);
    }
    if ss[n].CreateIndex? || ss[n].Promote? {
      AddedAreThere(d, ss[n].t, k);
    }
  }

  lemma IndexesOfInvites(v: nat, n: nat)
    requires n < |Statements(v)| && v != 1
    ensures Statements(v)[n].CreateIndex? ==> Statements(v)[n].t != InviteCodes && Statements(v)[n].x != INVITES_INDEX
    ensures Statements(v)[n].Promote? ==> Statements(v)[n].t != InviteCodes
  {
    hide Baseline;
  }

  // ----- The index of invite_codes

  ghost predicate SameInvites(d: Db, e: Db) {
    && (InviteCodes in d.tables <==> InviteCodes in e.tables)
    && (InviteCodes in d.tables && InviteCodes in e.tables ==>
      OldShape(d.tables[InviteCodes].columns.Keys) == OldShape(e.tables[InviteCodes].columns.Keys))
    && (INVITES_INDEX in d.indexes <==> INVITES_INDEX in e.indexes)
  }

  lemma ExecSameInvites(d: Db, v: nat, n: nat, e: Db)
    requires n < |Statements(v)| && v != 1 && Exec(d, Statements(v)[n]) == Some(e)
    ensures SameInvites(d, e)
  {
    hide Statements, OldShape, Made, Promoted;
    ExecGrows(d, v, n, e);
    IndexesOfInvites(v, n);
    AllInOrder(v, n);
  }

  /** The baseline is recorded and invite_codes is as the rebuild wants it, but its index is missing. */
  ghost predicate IndexLost(d: Db) {
    1 in d.ledger && InviteCodes in d.tables && !OldShape(d.tables[InviteCodes].columns.Keys) && INVITES_INDEX !in d.indexes
  }

  lemma IndexLostAlike(d: Db, e: Db, v: nat)
    requires v == 1 ==> 1 !in d.ledger && INVITES_INDEX in e.indexes
    requires v != 1 ==> 1 in d.ledger
    requires v != 1 && v != REBUILD ==> SameInvites(d, e)
    requires v == REBUILD ==> e == d || (INVITES_INDEX in e.indexes && !IndexLost(d))
    requires e.ledger == d.ledger
    ensures IndexLost(e.(ledger := e.ledger + {v})) <==> IndexLost(d)
  {
    hide OldShape;
  }

  lemma IndexLostAtTheEnd(d: Db)
    requires At(d, LAST)
    ensures IndexLost(d) <==> INVITES_INDEX !in d.indexes
  {
    hide OldShape, Recorded;
  }

  /** A crash of the rebuild between its CREATE TABLE and its CREATE INDEX leaves exactly that. */
  lemma RebuildWindow(d: Db)
    requires At(d, REBUILD - 1) && Renewed(d, InviteCodes)
    ensures IndexLost(Exec(DropInvites(d), Create(InviteCodes)).value)
  {
    NewInvites();
    hide Made, Promoted, Recorded, OldShape;
  }

  // ----- The code

  class Database {
    var tables: map<Table, Relation>
    var indexes: set<Index>
    var ledger: set<nat>
    var accounts: Accounts

    ghost function View(): Db
      reads this
    {
      Db(tables, indexes, ledger, accounts)
    }

    constructor (d: Db)
      ensures View() == d
    {
      tables, indexes, ledger, accounts := d.tables, d.indexes, d.ledger, d.accounts;
    }

    method Put(d: Db)
      modifies this
      ensures View() == d
    {
      tables, indexes, ledger, accounts := d.tables, d.indexes, d.ledger, d.accounts;
    }

    /** One request that sends the database to `next`. Unless `reliable` it may fail, before or after its effect. */
    method Request(next: Db, reliable: bool) returns (ok: bool)
      modifies this
      ensures View() == old(View()) || View() == next
      ensures ok ==> View() == next
      ensures reliable ==> ok
    {
      var lost: bool := *;
      if !reliable && lost {
        return false;
      }
      Put(next);
      var failed: bool := *;
      ok := reliable || !failed;
    }

    /** d1Query of a schema statement: an SQL error has no effect. */
    method Query(s: Statement, reliable: bool) returns (ok: bool)
      modifies this
      ensures View() == old(View()) || Exec(old(View()), s) == Some(View())
      ensures ok ==> Exec(old(View()), s) == Some(View())
      ensures reliable && Exec(old(View()), s).Some? ==> ok
    {
      var next := Exec(Db(tables, indexes, ledger, accounts), s);
      if next.None? {
        return false;
      }
      ok := Request(next.value, reliable);
    }

    /** The statements of a migration, one after another. */
    method Apply(v: nat, reliable: bool) returns (ok: bool)
      requires 1 <= v <= LAST && At(View(), v - 1)
      modifies this
      ensures At(View(), v - 1) && Kept(old(View()), View())
      ensures ok ==> AllDid(View(), Statements(v))
      ensures v != 1 ==> SameInvites(old(View()), View())
      ensures ledger == old(ledger)
      ensures Blocked(View()) <==> Blocked(old(View()))
      ensures reliable && !Blocked(old(View())) ==> ok
    {
      hide Statements, At, Blocked, Kept, Did, Exec, Grew, OldShape;
      var ss := Statements(v);
      KeptReflexive(View());
      for n := 0 to |ss|
        invariant At(View(), v - 1) && Kept(old(View()), View())
        invariant forall m :: 0 <= m < n ==> Did(View(), ss[m])
        invariant ledger == old(ledger) && (v != 1 ==> SameInvites(old(View()), View()))
        invariant Blocked(View()) <==> Blocked(old(View()))
      {
        ghost var d := View();
        CanRun(d, v - 1, n, ss);
        ok := Query(ss[n], reliable);
        if View() != d {
          ExecKeepsAt(d, v - 1, n, View());
          NotRecorded(d, v - 1);
          ExecKeeps(d, v, n, View());
          ExecKeepsBlocked(d, v - 1, n, View());
          KeptTransitive(old(View()), d, View());
          LedgerStays(d, ss[n], View());
          if v != 1 {
            ExecSameInvites(d, v, n, View());
          }
        }
        if !ok {
          return false;
        }
        JustDid(d, ss[n], View());
        ExecGrows(d, v, n, View());
        forall m | 0 <= m < n ensures Did(View(), ss[m]) {
          DidSurvives(d, View(), ss[m]);
        }
      }
      ok := true;
    }

    /**
     Version 11: invite_codes of the old shape is dropped and created anew when it is empty, and refused otherwise.
     A missing table is one an earlier boot dropped.
     */
    method RebuildInvites(reliable: bool) returns (ok: bool)
      requires At(View(), REBUILD - 1)
      modifies this
      ensures At(View(), REBUILD - 1) && Kept(old(View()), View())
      ensures ok ==> InviteCodes in tables && !OldShape(tables[InviteCodes].columns.Keys) && ledger == old(ledger)
      ensures ok ==> View() == old(View()) || (INVITES_INDEX in indexes && !IndexLost(old(View())))
      ensures reliable && !Refused(old(View())) ==> ok
      ensures Blocked(View()) <==> Blocked(old(View()))
      ensures InviteCodes in old(tables) && !Plaintext(old(tables)[InviteCodes]) ==> ok && View() == old(View())
      ensures InviteCodes in old(tables) && Plaintext(old(tables)[InviteCodes]) && old(tables)[InviteCodes].rows > 0 ==>
        !ok && View() == old(View())
      ensures ok && (InviteCodes in old(tables) ==> Plaintext(old(tables)[InviteCodes])) ==>
        View() == old(View()).(tables := old(tables)[InviteCodes := Relation(Made(InviteCodes), 0)],
                               indexes := old(indexes) + {INVITES_INDEX})
    {
      PlaintextIsOldShape(View());
      ExecIs(View());
      hide Exec, Statements, At, Blocked, Kept, Made, Promoted, Added, OldShape, FinalOf;
      ghost var d := View();
      KeptReflexive(d);
      if InviteCodes in tables {
        if !OldShape(tables[InviteCodes].columns.Keys) {
          return true;
        }
        if tables[InviteCodes].rows > 0 {
          return false;
        }
      }
      Drops(d);
      ok := Request(DropInvites(Db(tables, indexes, ledger, accounts)), reliable);
      if !ok {
        return false;
      }
      ghost var e := View();
      Creates(e);
      KeptTransitive(d, e, Exec(e, Create(InviteCodes)).value);
      ok := Query(Create(InviteCodes), reliable);
      if !ok {
        return false;
      }
      ghost var f := View();
      NewInvites();
      ExecIs(e);
      Indexes(f);
      KeptTransitive(d, f, f.(indexes := f.indexes + {INVITES_INDEX}));
      ok := Query(CreateIndex(INVITES_INDEX, InviteCodes), reliable);
    }

    /**
     migrateDb. From whatever the boots before it left, a boot that completes leaves every version in the ledger
     and every table as it was always going to be; one that does not complete changes neither that nor any row.
     Without failures it completes exactly when invite_codes holds no rows of the old shape, and no table that was there
     lacks a column that a statement still to be run needs. The index of invite_codes is
     missing afterwards exactly when the boot began with the baseline recorded, the table in its new shape and no index.
     */
    method MigrateDb(reliable: bool) returns (completed: bool)
      requires exists k :: At(View(), k)
      modifies this
      ensures exists k :: At(View(), k)
      ensures Kept(old(View()), View())
      ensures completed ==> ledger == UpTo(LAST)
      ensures completed ==> forall t :: t in tables && tables[t] == FinalOf(old(View()), t)
      ensures completed ==> accounts == FinalAccounts(old(View()))
      ensures completed ==> !Refused(old(View())) && !Blocked(old(View()))
      ensures reliable && !Refused(old(View())) && !Blocked(old(View())) ==> completed
      ensures Blocked(View()) <==> Blocked(old(View()))
      ensures completed ==> (INVITES_INDEX !in indexes <==> IndexLost(old(View())))
    {
      hide Statements, Kept, Made, Promoted, Added, OldShape, FinalOf, Recorded, Refused, Blocked, Did, IndexLost, SameInvites, AllDid;
      ghost var k: nat :| At(View(), k);
      var applied := ledger;
      KeptReflexive(View());
      for v := 1 to LAST + 1
        invariant At(View(), k) && v <= k + 1 && applied <= ledger
        invariant v !in applied ==> k + 1 == v
        invariant forall u :: v < u && u in ledger ==> u in applied
        invariant Kept(old(View()), View())
        invariant IndexLost(View()) <==> IndexLost(old(View()))
        invariant Blocked(View()) <==> Blocked(old(View()))
      {
        if v in applied {
          continue;
        }
        ghost var d := View();
        var ok;
        if v == REBUILD {
          ok := RebuildInvites(reliable);
        } else {
          ok := Apply(v, reliable);
        }
        KeptTransitive(old(View()), d, View());
        RefusedAlike(old(View()), d);
        if !ok {
          return false;
        }
        ghost var e := View();
        if v == 1 {
          BaselineIndexes(e);
        }
        IndexLostAlike(d, e, v);
        RecordNext(e, v);
        if v == REBUILD {
          NothingToRecord(e);
        }
        LedgerKeepsBlocked(e, v);
        LedgerKeeps(e, v);
        KeptTransitive(old(View()), e, e.(ledger := e.ledger + {v}));
        ok := Request(Db(tables, indexes, ledger + {v}, accounts), reliable);
        if !ok {
          return false;
        }
        k := v;
      }
      IndexLostAtTheEnd(View());
      NothingLeftAtTheEnd(View());
      AccountsArrived(View());
      KeptAccounts(old(View()), View());
      RefusedAlike(old(View()), View());
      forall t ensures t in tables && tables[t] == FinalOf(old(View()), t) {
        LedgerFullMeansFinal(View(), t);
        KeptFinal(old(View()), View(), t);
      }
      completed := true;
    }

    /**
     Any number of boots, each of which may end at any statement, and then one that completes: the tables are those
     a single boot without failures makes of the first database.
     */
    method Boots(reliable: seq<bool>) returns (completed: bool)
      requires ledger == {} && |reliable| > 0
      modifies this
      ensures Kept(old(View()), View())
      ensures completed ==> ledger == UpTo(LAST) && forall t :: t in tables && tables[t] == FinalOf(old(View()), t)
      ensures reliable[|reliable| - 1] ==> (completed <==> !Refused(old(View())) && !Blocked(old(View())))
    {
      hide Kept, FinalOf, Recorded, Refused, Blocked, At;
      completed := false;
      EmptyLedger(View());
      KeptReflexive(View());
      for n := 0 to |reliable|
        invariant exists k :: At(View(), k)
        invariant Kept(old(View()), View())
        invariant completed ==> ledger == UpTo(LAST) && forall t :: t in tables && tables[t] == FinalOf(old(View()), t)
        invariant Blocked(View()) <==> Blocked(old(View()))
        invariant n > 0 && reliable[n - 1] ==> (completed <==> !Refused(old(View())) && !Blocked(old(View())))
      {
        ghost var d := View();
        completed := MigrateDb(reliable[n]);
        KeptTransitive(old(View()), d, View());
        RefusedAlike(old(View()), d);
        forall t ensures FinalOf(d, t) == FinalOf(old(View()), t) {
          KeptFinal(old(View()), d, t);
        }
      }
    }
  }

  /** A table of codes in plain text: it has a column `code` and none for its hash. */
  predicate Plaintext(r: Relation) {
    Column("code") in r.columns && Column("code_hash") !in r.columns
  }

  lemma PlaintextIsOldShape(d: Db)
    ensures InviteCodes in d.tables ==> (Plaintext(d.tables[InviteCodes]) <==> OldShape(d.tables[InviteCodes].columns.Keys))
  {
  }

  lemma ExecIs(d: Db)
    ensures InviteCodes !in d.tables ==>
      Exec(d, Create(InviteCodes)) == Some(d.(tables := d.tables[InviteCodes := Relation(Made(InviteCodes), 0)]))
  {
    hide Made;
  }

  // The three requests of the rebuild.

  lemma Drops(d: Db)
    requires At(d, REBUILD - 1) && Renewed(d, InviteCodes)
    ensures var e := DropInvites(d);
      At(e, REBUILD - 1) && Kept(d, e) && (Blocked(d) <==> Blocked(e)) && e.ledger == d.ledger && InviteCodes !in e.tables
  {
    hide At, Kept, Blocked, OldShape;
    BaselineRecorded(d);
    RebuildKeepsAt(d);
    DropKeeps(d);
    InvitesAside(d, DropInvites(d));
  }

  lemma Creates(d: Db)
    requires At(d, REBUILD - 1) && InviteCodes !in d.tables
    ensures Exec(d, Create(InviteCodes)).Some?
    ensures var e := Exec(d, Create(InviteCodes)).value;
      && At(e, REBUILD - 1) && Kept(d, e) && (Blocked(d) <==> Blocked(e)) && e.ledger == d.ledger
      && InviteCodes in e.tables && e.tables[InviteCodes].columns.Keys == Shape(InviteCodes)
  {
    BaselineRecorded(d);
    RebuildKeepsAt(d);
    CreateInvitesKeeps(d);
    InvitesAside(d, Exec(d, Create(InviteCodes)).value);
    hide At, Kept, Blocked, Made, Promoted;
  }

  lemma Indexes(d: Db)
    requires At(d, REBUILD - 1) && InviteCodes in d.tables && d.tables[InviteCodes].columns.Keys == Shape(InviteCodes)
    ensures var e := d.(indexes := d.indexes + {INVITES_INDEX});
      && Exec(d, CreateIndex(INVITES_INDEX, InviteCodes)) == Some(e)
      && At(e, REBUILD - 1) && Kept(d, e) && (Blocked(d) <==> Blocked(e)) && e.ledger == d.ledger
  {
    BaselineRecorded(d);
    RebuildKeepsAt(d);
    IndexInShape(INVITES_INDEX);
    IndexKeeps(d, INVITES_INDEX);
    InvitesAside(d, d.(indexes := d.indexes + {INVITES_INDEX}));
    hide At, Kept, Blocked, Made, Promoted;
  }

  /** Before its first ledger entry any database will do: empty, or with whatever an older release left. */
  lemma EmptyLedger(d: Db)
    requires d.ledger == {}
    ensures At(d, 0)
  {
  }

  lemma BaselineRecorded(d: Db)
    requires At(d, REBUILD - 1)
    ensures 1 in d.ledger
  {
    hide Recorded, OldShape;
  }

  lemma NotRecorded(d: Db, k: nat)
    requires At(d, k)
    ensures k + 1 !in d.ledger
  {
    hide Recorded, OldShape;
  }

  lemma NothingToRecord(d: Db)
    ensures AllDid(d, Statements(REBUILD))
  {
  }

  lemma NothingLeftAtTheEnd(d: Db)
    requires At(d, LAST)
    ensures !Blocked(d) && !Refused(d)
  {
    hide Recorded, OldShape, Lacks, Statements;
  }

  lemma KeptReflexive(d: Db)
    ensures Kept(d, d)
  {
    hide FinalOf, Refused;
  }

  lemma RefusedAlike(d: Db, e: Db)
    requires Kept(d, e)
    ensures Refused(d) <==> Refused(e)
  {
    hide FinalOf, Refused;
  }

  lemma KeptAccounts(d: Db, e: Db)
    requires Kept(d, e)
    ensures FinalAccounts(d) == FinalAccounts(e)
  {
    hide FinalOf, Refused, FinalAccounts;
  }

  lemma KeptFinal(d: Db, e: Db, t: Table)
    requires Kept(d, e)
    ensures FinalOf(d, t) == FinalOf(e, t)
  {
    hide FinalOf, Refused;
  }

  lemma IndexKeeps(d: Db, x: Index)
    ensures Kept(d, d.(indexes := d.indexes + {x}))
  {
    hide Made, Promoted, Added, OldShape;
  }

  lemma BaselineIndexes(d: Db)
    requires AllDid(d, Statements(1))
    ensures INVITES_INDEX in d.indexes
  {
    assert Statements(1)[4] == CreateIndex(INVITES_INDEX, InviteCodes);
    assert Did(d, Statements(1)[4]);
  }

  lemma RecordNext(d: Db, v: nat)
    requires 1 <= v <= LAST && At(d, v - 1)
    requires v != REBUILD ==> AllDid(d, Statements(v))
    requires v == REBUILD ==> InviteCodes in d.tables && !OldShape(d.tables[InviteCodes].columns.Keys)
    ensures At(d.(ledger := d.ledger + {v}), v)
  {
    assert Statements(REBUILD) == [];
    hide At, Did, OldShape, Statements;
    RecordAt(d, v - 1, Statements(v));
  }
}
