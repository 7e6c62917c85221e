/**
 What ownership provisioning is for, stated without reference to how it is carried out: the goal
 state of a plan, the states that lie between a start state and a goal, and when a plan can
 complete at all.
 */
module Ownership {
  import opened Text
  import opened Privileges
  import opened Catalog

  datatype SchemaSpec = SchemaSpec(name: string, owner: string)

  /** A default privilege listed in the database spec; the role grants to itself. */
  datatype DefaultSpec = DefaultSpec(role: string, schema: string, objectType: string, privileges: seq<string>)

  datatype Plan = Plan(db: string, role: string, user: string, schemas: seq<SchemaSpec>,
                       setDefaults: bool, standard: seq<PrivilegeDef>, defaults: seq<DefaultSpec>)

  /** The privileges granted by default on one type of object. */
  datatype PrivilegeDef = PrivilegeDef(objectType: string, privileges: seq<string>)

  function StandardDefs(): seq<PrivilegeDef> {
    [ PrivilegeDef("tables", ["SELECT", "INSERT", "UPDATE", "DELETE"]),
      PrivilegeDef("sequences", ["USAGE", "SELECT"]),
      PrivilegeDef("functions", ["EXECUTE"]) ]
  }

  const UPDATE_OBJECT_TYPES: seq<string> := ["tables", "sequences", "functions", "types"]

  // ----- Default privileges --------------------------------------------------------------

  function Names(schemas: seq<SchemaSpec>): set<string> {
    set s | s in schemas :: s.name
  }

  /** The schemas that receive default privileges: always public, plus the configured ones. */
  function Covered(names: set<string>): set<string> {
    {PUBLIC} + names
  }

  /** Every default privilege of one direction: objects of `creator` become usable by `grantee`. */
  function Direction(db: string, schemas: set<string>, defs: seq<PrivilegeDef>, creator: string,
                     grantee: string): set<DefaultEntry> {
    set sc, d, p | sc in schemas && d in defs && p in d.privileges ::
      DefaultEntry(db, sc, creator, d.objectType, grantee, p)
  }

  function BothWays(db: string, schemas: set<string>, defs: seq<PrivilegeDef>, role: string,
                    user: string): set<DefaultEntry> {
    Direction(db, schemas, defs, role, user) + Direction(db, schemas, defs, user, role)
  }

  /** A definition the statement builder accepts and renders as it stands. */
  predicate WellFormed(d: PrivilegeDef) {
    && ValidPrivileges(d.privileges, PgDialect) && Words(d.privileges) == (set p | p in d.privileges)
    && ToLower(d.objectType) == d.objectType && Listed(d.objectType, OBJECT_TYPES)
  }

  /** The server knows the definition's privileges on its type of object. */
  predicate DefTaken(d: PrivilegeDef, v: Server) {
    Takes(v, SortOfType(d.objectType), (set p | p in d.privileges))
  }

  predicate DefsTaken(defs: seq<PrivilegeDef>, v: Server) {
    forall d :: d in defs ==> DefTaken(d, v)
  }

  predicate AllWellFormed(defs: seq<PrivilegeDef>) {
    defs == [] || (WellFormed(defs[0]) && AllWellFormed(defs[1..]))
  }

  lemma {:induction false} WellFormedAt(defs: seq<PrivilegeDef>, j: nat)
    requires AllWellFormed(defs) && j < |defs|
    ensures WellFormed(defs[j])
  {
    if j == 0 {
    } else {
      WellFormedAt(defs[1..], j - 1);
    }
  }

  predicate StandardWord(p: string) {
    p == "SELECT" || p == "INSERT" || p == "UPDATE" || p == "DELETE" || p == "USAGE" || p == "EXECUTE"
  }

  lemma WordNormal(p: string)
    requires StandardWord(p)
    ensures Normalize(p) == p
  {
    NormalizeUpper(p);
  }

  lemma WordListed(p: string)
    requires StandardWord(p)
    ensures Listed(p, Allowlist(PgDialect))
  {
    ListedAt(Allowlist(PgDialect), 0); ListedAt(Allowlist(PgDialect), 1); ListedAt(Allowlist(PgDialect), 2);
    ListedAt(Allowlist(PgDialect), 3); ListedAt(Allowlist(PgDialect), 11); ListedAt(Allowlist(PgDialect), 12);
  }

  predicate StandardType(t: string) {
    t == "tables" || t == "sequences" || t == "functions"
  }

  lemma TypeListed(t: string)
    requires StandardType(t)
    ensures Listed(t, OBJECT_TYPES)
  {
    ListedAt(OBJECT_TYPES, 0); ListedAt(OBJECT_TYPES, 1); ListedAt(OBJECT_TYPES, 2);
  }

  lemma TypeLower(t: string)
    requires StandardType(t)
    ensures ToLower(t) == t
  {
    ToLowerFixed(t);
  }

  lemma StandardDefsUse(d: PrivilegeDef)
    requires d in StandardDefs()
    ensures d.privileges != [] && StandardType(d.objectType)
    ensures forall p :: p in d.privileges ==> StandardWord(p)
  {}

  /** Every standard definition passes the builder's checks unchanged. */
  lemma StandardDefsWellFormed(d: PrivilegeDef)
    requires d in StandardDefs()
    ensures WellFormed(d)
  {
    StandardDefsUse(d);
    forall p | p in d.privileges ensures Normalize(p) == p && Allowed(p, PgDialect) {
      WordNormal(p);
      WordListed(p);
    }
    TypeListed(d.objectType);
    TypeLower(d.objectType);
  }

  lemma KnownWord(sort: Sort, p: string)
    requires StandardWord(p) && p in AllOn(sort)
    ensures (sort, p) !in PgRefused()
  {
    assert Atom(sort, p) == {p};
  }

  lemma StandardDefKnown(d: PrivilegeDef, p: string)
    requires d in StandardDefs() && p in d.privileges
    ensures StandardWord(p) && p in AllOn(SortOfType(d.objectType))
  {}

  /** And PostgreSQL knows its privileges on its type of object. */
  lemma StandardDefsTaken(v: Server)
    requires v.refused == PgRefused()
    ensures DefsTaken(StandardDefs(), v)
  {
    forall d | d in StandardDefs() ensures DefTaken(d, v) {
      forall p | p in d.privileges ensures (SortOfType(d.objectType), p) !in PgRefused() {
        StandardDefKnown(d, p);
        KnownWord(SortOfType(d.objectType), p);
      }
    }
  }

  lemma StandardDefsAllWellFormed()
    ensures AllWellFormed(StandardDefs()) && StandardDefs() != []
  {
    forall d | d in StandardDefs() ensures WellFormed(d) {
      StandardDefsWellFormed(d);
    }
    AllWellFormedIntro(StandardDefs());
  }

  lemma {:induction false} AllWellFormedIntro(defs: seq<PrivilegeDef>)
    requires forall d :: d in defs ==> WellFormed(d)
    ensures AllWellFormed(defs)
  {
    if defs == [] {
    } else {
      AllWellFormedIntro(defs[1..]);
    }
  }

  function SpecEntries(db: string, specs: seq<DefaultSpec>): set<DefaultEntry> {
    set d, e | d in specs && e in DefaultEntries(db, d.schema, d.role, d.objectType, Words(d.privileges), d.role) :: e
  }

  ghost predicate Sub<K, V>(m: map<K, V>, m': map<K, V>) {
    forall k :: k in m ==> k in m' && m'[k] == m[k]
  }

  // ----- Schemas -------------------------------------------------------------------------

  /** CREATE SCHEMA IF NOT EXISTS for each entry in turn: a schema that is there keeps its owner. */
  function WithSchemas(m: map<(string, string), string>, db: string, schemas: seq<SchemaSpec>,
                       admin: string): map<(string, string), string> {
    if schemas == [] then m else
      var last := schemas[|schemas| - 1];
      AddIfMissing(WithSchemas(m, db, schemas[..|schemas| - 1], admin), (db, last.name), OwnerOr(last.owner, admin))
  }

  function OwnerOr(owner: string, admin: string): string {
    if owner == "" then admin else owner
  }

  lemma WithSchemasSnoc(m: map<(string, string), string>, db: string, schemas: seq<SchemaSpec>, s: SchemaSpec,
                        admin: string)
    ensures WithSchemas(m, db, schemas + [s], admin)
         == AddIfMissing(WithSchemas(m, db, schemas, admin), (db, s.name), OwnerOr(s.owner, admin))
  {
    assert (schemas + [s])[..|schemas|] == schemas;
  }

  lemma {:induction false} WithSchemasKeys(m: map<(string, string), string>, db: string, schemas: seq<SchemaSpec>,
                                           admin: string)
    ensures Sub(m, WithSchemas(m, db, schemas, admin))
    ensures WithSchemas(m, db, schemas, admin).Keys == m.Keys + (set n | n in Names(schemas) :: (db, n))
  {
    if schemas == [] {
    } else {
      var rest, last := schemas[..|schemas| - 1], schemas[|schemas| - 1];
      WithSchemasKeys(m, db, rest, admin);
      assert schemas == rest + [last];
      assert Names(schemas) == Names(rest) + {last.name};
      assert (set n | n in Names(schemas) :: (db, n)) == (set n | n in Names(rest) :: (db, n)) + {(db, last.name)};
    }
  }

  /** The schemas created so far are among those created in the end. */
  lemma {:induction false} WithSchemasPrefix(m: map<(string, string), string>, db: string, schemas: seq<SchemaSpec>,
                                             i: nat, admin: string)
    requires i <= |schemas|
    ensures Sub(WithSchemas(m, db, schemas[..i], admin), WithSchemas(m, db, schemas, admin))
    decreases |schemas| - i
  {
    if i < |schemas| {
      WithSchemasPrefix(m, db, schemas, i + 1, admin);
      assert schemas[..i + 1] == schemas[..i] + [schemas[i]];
      WithSchemasSnoc(m, db, schemas[..i], schemas[i], admin);
    } else {
      assert schemas[..i] == schemas;
    }
  }

  /** A schema missing at the start gets the same owner whatever else was there. */
  /** Of several entries of one name the first decides the owner. */
  lemma {:induction false} WithSchemasFirst(m: map<(string, string), string>, db: string, schemas: seq<SchemaSpec>,
                                            admin: string, i: nat)
    requires i < |schemas| && (db, schemas[i].name) !in m
    requires forall j :: 0 <= j < i ==> schemas[j].name != schemas[i].name
    ensures var r, k := WithSchemas(m, db, schemas, admin), (db, schemas[i].name);
            k in r && r[k] == if schemas[i].owner == "" then admin else schemas[i].owner
  {
    var rest := schemas[..|schemas| - 1];
    if i == |schemas| - 1 {
      WithSchemasKeys(m, db, rest, admin);
      assert forall s :: s in rest ==> s.name != schemas[i].name;
    } else {
      WithSchemasFirst(m, db, rest, admin, i);
    }
  }

  lemma {:induction false} WithSchemasMissing(m: map<(string, string), string>, m': map<(string, string), string>,
                                              db: string, schemas: seq<SchemaSpec>, admin: string,
                                              k: (string, string))
    requires k !in m && k !in m'
    ensures var r, r' := WithSchemas(m, db, schemas, admin), WithSchemas(m', db, schemas, admin);
            (k in r <==> k in r') && (k in r ==> r[k] == r'[k])
  {
    if schemas == [] {
    } else {
      WithSchemasMissing(m, m', db, schemas[..|schemas| - 1], admin, k);
    }
  }

  // ----- Pipeline steps ------------------------------------------------------------------

  datatype Step =
    | CreateOwnerRole | EnsureDatabase | VerifyAccess | TransferOwnership
    | CreateAppUser | SetDefaultPrivileges | UpdateDatabase

  function Steps(p: Plan): seq<Step> {
    [CreateOwnerRole, EnsureDatabase, VerifyAccess, TransferOwnership, CreateAppUser]
    + (if p.setDefaults then [SetDefaultPrivileges] else [])
    + [UpdateDatabase]
  }

  /** What one completed step has established. */
  function StepGoal(p: Plan, step: Step, v: Server): Server {
    match step
    case CreateOwnerRole => v.(roles := AddIfMissing(v.roles, p.role, false))
    case EnsureDatabase => if p.db in v.databases then v else Effect(CreateDatabase(p.db, p.role), v)
    case VerifyAccess => v
    case TransferOwnership => v.(databases := v.databases[p.db := p.role])
    case CreateAppUser =>
      v.(roles := AddIfMissing(v.roles, p.user, true), memberships := v.memberships + {(p.user, p.role)})
    case SetDefaultPrivileges =>
      v.(defaults := v.defaults + BothWays(p.db, Covered(Names(p.schemas)), p.standard, p.role, p.user))
    case UpdateDatabase =>
      v.(schemas := WithSchemas(v.schemas, p.db, p.schemas, v.admin),
         defaults := v.defaults + SpecEntries(p.db, p.defaults))
  }

  /** What a step needs in order to complete when no call fails. */
  predicate StepReady(p: Plan, step: Step, v: Server) {
    match step
    case CreateOwnerRole => true
    case EnsureDatabase => p.db != "" && (p.db in v.databases || p.role in v.roles)
    case VerifyAccess => p.db in v.databases
    case TransferOwnership => p.db in v.databases && p.role in v.roles
    case CreateAppUser => p.role in v.roles && p.role != p.user
    case SetDefaultPrivileges =>
      && p.db in v.databases && p.role in v.roles && p.user in v.roles && DefsTaken(p.standard, v)
      && (v.strictSchemas ==> forall n :: n in Covered(Names(p.schemas)) ==> n != "" ==> (p.db, n) in v.schemas)
    case UpdateDatabase =>
      && (forall s :: s in p.schemas ==> p.db in v.databases && (s.owner == "" || s.owner in v.roles))
      && (forall d :: d in p.defaults ==> DefaultSpecReady(p, d, v))
  }

  predicate DefaultSpecReady(p: Plan, d: DefaultSpec, v: Server) {
    && Listed(d.objectType, UPDATE_OBJECT_TYPES) && ValidPrivileges(d.privileges, PgDialect)
    && Takes(v, SortOfType(d.objectType), Words(d.privileges))
    && p.db in v.databases && d.role != "" && d.role in v.roles && (p.role == "" || p.role in v.roles)
    && (v.strictSchemas && d.schema != "" ==> (p.db, d.schema) in v.schemas || d.schema in Names(p.schemas))
  }

  /** The state after the first `k` steps have completed. */
  function Partial(p: Plan, k: nat, v: Server): Server
    requires k <= |Steps(p)|
  {
    if k == 0 then v else StepGoal(p, Steps(p)[k - 1], Partial(p, k - 1, v))
  }

  // ----- The goal ------------------------------------------------------------------------

  /** The schemas once the database exists; a new database comes with public. */
  function BaseSchemas(p: Plan, v: Server): map<(string, string), string> {
    if p.db in v.databases then v.schemas else AddIfMissing(v.schemas, (p.db, PUBLIC), v.admin)
  }

  /** `v` with the first `i` configured schemas present. */
  function Schemas(p: Plan, i: nat, v: Server): Server
    requires i <= |p.schemas|
  {
    v.(schemas := WithSchemas(v.schemas, p.db, p.schemas[..i], v.admin))
  }

  /** The state a plan is meant to reach from `v`, in one declarative description. */
  function Goal(p: Plan, v: Server): Server {
    v.(roles := AddIfMissing(AddIfMissing(v.roles, p.role, false), p.user, true),
       memberships := v.memberships + {(p.user, p.role)},
       databases := v.databases[p.db := p.role],
       schemas := WithSchemas(BaseSchemas(p, v), p.db, p.schemas, v.admin),
       defaults := v.defaults
         + (if p.setDefaults then BothWays(p.db, Covered(Names(p.schemas)), p.standard, p.role, p.user) else {})
         + SpecEntries(p.db, p.defaults))
  }

  /** A schema that will exist by the time default privileges are set. */
  predicate SchemaThere(p: Plan, n: string, v: Server) {
    n == "" || (p.db, n) in v.schemas || (n == PUBLIC && p.db !in v.databases)
  }

  /** Every schema that is to receive default privileges will exist in time. */
  predicate SchemasThere(p: Plan, v: Server) {
    forall n :: n in Covered(Names(p.schemas)) ==> SchemaThere(p, n, v)
  }

  /** Every configured schema owner exists or will. */
  predicate OwnersKnown(p: Plan, v: Server) {
    forall s :: s in p.schemas ==> s.owner in v.roles.Keys + {"", p.role, p.user}
  }

  predicate DefaultSpecFits(p: Plan, d: DefaultSpec, v: Server) {
    && Listed(d.objectType, UPDATE_OBJECT_TYPES) && ValidPrivileges(d.privileges, PgDialect)
    && Takes(v, SortOfType(d.objectType), Words(d.privileges))
    && d.role != "" && d.role in v.roles.Keys + {p.role, p.user}
    && (v.strictSchemas ==> d.schema in Names(p.schemas) || SchemaThere(p, d.schema, v))
  }

  /** Every default privilege of the spec can be built, and its grantee and schema exist or will. */
  predicate DefaultSpecsFit(p: Plan, v: Server) {
    forall d :: d in p.defaults ==> DefaultSpecFits(p, d, v)
  }

  /** When a run without faults completes; everything here can be checked before the run. */
  predicate Completable(p: Plan, v: Server) {
    && p.db != "" && p.role != p.user
    && (p.setDefaults ==> DefsTaken(p.standard, v))
    && (p.setDefaults && v.strictSchemas ==> SchemasThere(p, v))
    && OwnersKnown(p, v) && DefaultSpecsFit(p, v)
  }

  /** The ownership facts the operator advertises. */
  predicate Owned(db: string, role: string, user: string, v: Server) {
    && role in v.roles && user in v.roles
    && (user, role) in v.memberships
    && db in v.databases && v.databases[db] == role
  }

  // ----- Betweenness ---------------------------------------------------------------------

  /**
   `w` lies between `v` and `t`: nothing of `v` has been removed, nothing outside `t` has been added,
   and the owner of each database is the one it has in `v` or in `t`.
   */
  ghost predicate Between(v: Server, w: Server, t: Server) {
    && w.admin == v.admin == t.admin && w.strictSchemas == v.strictSchemas == t.strictSchemas
    && w.refused == v.refused == t.refused
    && w.objects == v.objects == t.objects && w.held == v.held == t.held && w.regrant == v.regrant == t.regrant
    && Sub(v.roles, w.roles) && Sub(w.roles, t.roles)
    && v.memberships <= w.memberships <= t.memberships
    && Sub(v.schemas, w.schemas) && Sub(w.schemas, t.schemas)
    && v.defaults <= w.defaults <= t.defaults
    && v.databases.Keys <= w.databases.Keys <= t.databases.Keys
    && (forall d :: d in w.databases ==>
          w.databases[d] == t.databases[d] || (d in v.databases && w.databases[d] == v.databases[d]))
    && (forall d :: d in w.databases && d !in v.databases ==> (d, PUBLIC) in w.schemas)
  }

  lemma BetweenCompose(v: Server, a: Server, w: Server, b: Server, t: Server)
    requires Between(v, a, t) && Between(v, b, t) && Between(a, w, b)
    ensures Between(v, w, t)
  {}

  /** One CREATE SCHEMA, whatever becomes of it, stays on the way to all of them. */
  lemma SchemaStep(p: Plan, i: nat, v: Server, fault: Fault)
    requires i < |p.schemas|
    ensures var s, n := p.schemas[i], |p.schemas|;
            var stmt := CreateSchema(p.db, s.name, s.owner);
            && Between(v, After(fault, stmt, Schemas(p, i, v)), Schemas(p, n, v))
            && (Legal(stmt, Schemas(p, i, v)) <==> Legal(stmt, v))
            && Effect(stmt, Schemas(p, i, v)) == Schemas(p, i + 1, v)
  {
    var s := p.schemas[i];
    assert p.schemas[..i + 1] == p.schemas[..i] + [s];
    WithSchemasSnoc(v.schemas, p.db, p.schemas[..i], s, v.admin);
    SchemasBetween(p, i, v);
    SchemasBetween(p, i + 1, v);
  }

  lemma SchemasBetween(p: Plan, i: nat, v: Server)
    requires i <= |p.schemas|
    ensures Between(v, Schemas(p, i, v), Schemas(p, |p.schemas|, v))
  {
    assert p.schemas[..|p.schemas|] == p.schemas;
    WithSchemasPrefix(v.schemas, p.db, p.schemas, i, v.admin);
    WithSchemasKeys(v.schemas, p.db, p.schemas[..i], v.admin);
  }

  lemma WithSchemasStable(m: map<(string, string), string>, m': map<(string, string), string>, db: string,
                          schemas: seq<SchemaSpec>, admin: string)
    requires Sub(m, m') && Sub(m', WithSchemas(m, db, schemas, admin))
    ensures WithSchemas(m', db, schemas, admin) == WithSchemas(m, db, schemas, admin)
  {
    var r, r' := WithSchemas(m, db, schemas, admin), WithSchemas(m', db, schemas, admin);
    WithSchemasKeys(m, db, schemas, admin);
    WithSchemasKeys(m', db, schemas, admin);
    forall k | k in r ensures k in r' && r'[k] == r[k] {
      if k !in m' {
        WithSchemasMissing(m, m', db, schemas, admin, k);
      }
    }
  }

  lemma BaseSchemasStable(p: Plan, v: Server, w: Server)
    requires Between(v, w, Goal(p, v))
    ensures Sub(BaseSchemas(p, v), BaseSchemas(p, w))
    ensures Sub(BaseSchemas(p, w), Goal(p, v).schemas)
  {
    WithSchemasKeys(BaseSchemas(p, v), p.db, p.schemas, v.admin);
  }

  lemma RolesStable(r: map<string, bool>, r': map<string, bool>, role: string, user: string)
    requires Sub(r, r') && Sub(r', AddIfMissing(AddIfMissing(r, role, false), user, true))
    ensures AddIfMissing(AddIfMissing(r', role, false), user, true)
         == AddIfMissing(AddIfMissing(r, role, false), user, true)
  {}

  /** A partial run never moves the goal. */
  lemma GoalStable(p: Plan, v: Server, w: Server)
    requires Between(v, w, Goal(p, v))
    ensures Goal(p, w) == Goal(p, v)
  {
    var g, g' := Goal(p, v), Goal(p, w);
    assert g'.roles == g.roles by { RolesStable(v.roles, w.roles, p.role, p.user); }
    assert g'.databases == g.databases;
    assert g'.schemas == g.schemas by {
      BaseSchemasStable(p, v, w);
      WithSchemasStable(BaseSchemas(p, v), BaseSchemas(p, w), p.db, p.schemas, v.admin);
    }
    assert g'.defaults == g.defaults;
  }

  lemma GoalIdempotent(p: Plan, v: Server)
    ensures Goal(p, Goal(p, v)) == Goal(p, v)
    ensures Owned(p.db, p.role, p.user, Goal(p, v))
  {
    WithSchemasKeys(BaseSchemas(p, v), p.db, p.schemas, v.admin);
    assert Between(v, Goal(p, v), Goal(p, v));
    GoalStable(p, v, Goal(p, v));
  }

  // ----- Steps against the goal ----------------------------------------------------------

  /** The state after `k` completed steps, field by field. */
  function Shape(p: Plan, k: nat, v: Server): Server {
    var all := k >= |Steps(p)|;
    v.(roles :=
         (if k == 0 then v.roles
          else if k < 5 then AddIfMissing(v.roles, p.role, false)
          else AddIfMissing(AddIfMissing(v.roles, p.role, false), p.user, true)),
       memberships := (if k < 5 then v.memberships else v.memberships + {(p.user, p.role)}),
       databases :=
         (if k < 2 then v.databases
          else if k < 4 then AddIfMissing(v.databases, p.db, p.role)
          else v.databases[p.db := p.role]),
       schemas :=
         (if k < 2 then v.schemas
          else if !all then BaseSchemas(p, v)
          else WithSchemas(BaseSchemas(p, v), p.db, p.schemas, v.admin)),
       defaults := v.defaults
         + (if p.setDefaults && k >= 6 then BothWays(p.db, Covered(Names(p.schemas)), p.standard, p.role, p.user)
            else {})
         + (if all then SpecEntries(p.db, p.defaults) else {}))
  }

  lemma StepAt(p: Plan, k: nat)
    requires k < |Steps(p)|
    ensures |Steps(p)| == if p.setDefaults then 7 else 6
    ensures Steps(p)[k] ==
            if k == 0 then CreateOwnerRole else if k == 1 then EnsureDatabase else if k == 2 then VerifyAccess
            else if k == 3 then TransferOwnership else if k == 4 then CreateAppUser
            else if k == 5 && p.setDefaults then SetDefaultPrivileges else UpdateDatabase
  {}

  lemma ShapeOfDatabase(p: Plan, v: Server)
    ensures StepGoal(p, EnsureDatabase, Shape(p, 1, v)) == Shape(p, 2, v)
  {
    var a, b := StepGoal(p, EnsureDatabase, Shape(p, 1, v)), Shape(p, 2, v);
    assert a.databases == b.databases;
    assert a.schemas == b.schemas;
  }

  lemma ShapeOfUpdate(p: Plan, k: nat, v: Server)
    requires k == |Steps(p)| - 1
    ensures StepGoal(p, UpdateDatabase, Shape(p, k, v)) == Shape(p, k + 1, v)
  {
    var a, b := StepGoal(p, UpdateDatabase, Shape(p, k, v)), Shape(p, k + 1, v);
    assert a.defaults == b.defaults;
  }

  lemma ShapeStep(p: Plan, k: nat, v: Server)
    requires k < |Steps(p)|
    ensures StepGoal(p, Steps(p)[k], Shape(p, k, v)) == Shape(p, k + 1, v)
  {
    StepAt(p, k);
    if k == 1 {
      ShapeOfDatabase(p, v);
    } else if k == |Steps(p)| - 1 {
      ShapeOfUpdate(p, k, v);
    } else {
      var a, b := StepGoal(p, Steps(p)[k], Shape(p, k, v)), Shape(p, k + 1, v);
      assert a.databases == b.databases && a.defaults == b.defaults;
    }
  }

  lemma {:induction false} PartialShape(p: Plan, k: nat, v: Server)
    requires k <= |Steps(p)|
    ensures Partial(p, k, v) == Shape(p, k, v)
  {
    if k == 0 {
      assert Shape(p, 0, v).defaults == v.defaults;
    } else {
      PartialShape(p, k - 1, v);
      ShapeStep(p, k - 1, v);
    }
  }

  lemma ShapeRoles(p: Plan, k: nat, v: Server)
    ensures var w, t := Shape(p, k, v), Goal(p, v);
            Sub(v.roles, w.roles) && Sub(w.roles, t.roles) && v.memberships <= w.memberships <= t.memberships
  {}

  lemma ShapeDatabases(p: Plan, k: nat, v: Server)
    ensures var w, t := Shape(p, k, v), Goal(p, v);
            && v.databases.Keys <= w.databases.Keys <= t.databases.Keys
            && (forall d :: d in w.databases ==>
                  w.databases[d] == t.databases[d] || (d in v.databases && w.databases[d] == v.databases[d]))
  {}

  lemma ShapeSchemas(p: Plan, k: nat, v: Server)
    ensures var w, t := Shape(p, k, v), Goal(p, v);
            && Sub(v.schemas, w.schemas) && Sub(w.schemas, t.schemas)
            && (forall d :: d in w.databases && d !in v.databases ==> (d, PUBLIC) in w.schemas)
  {
    WithSchemasKeys(BaseSchemas(p, v), p.db, p.schemas, v.admin);
  }

  lemma ShapeDefaults(p: Plan, k: nat, v: Server)
    ensures v.defaults <= Shape(p, k, v).defaults <= Goal(p, v).defaults
  {}

  lemma ShapeBetween(p: Plan, k: nat, v: Server)
    ensures Between(v, Shape(p, k, v), Goal(p, v))
  {
    ShapeRoles(p, k, v);
    ShapeDatabases(p, k, v);
    ShapeSchemas(p, k, v);
    ShapeDefaults(p, k, v);
  }

  lemma LastShape(p: Plan, v: Server)
    ensures Shape(p, |Steps(p)|, v) == Goal(p, v)
  {}

  /** Every intermediate state lies between start and goal, and the last one is the goal. */
  lemma PartialBetween(p: Plan, k: nat, v: Server)
    requires k <= |Steps(p)|
    ensures Between(v, Partial(p, k, v), Goal(p, v))
    ensures k == |Steps(p)| ==> Partial(p, k, v) == Goal(p, v)
  {
    PartialShape(p, k, v);
    ShapeBetween(p, k, v);
    LastShape(p, v);
  }

  /** Whether the step after `k` completed ones can be taken, in terms of the start state. */
  predicate ReadyAt(p: Plan, k: nat, v: Server)
    requires k < |Steps(p)|
  {
    StepReady(p, Steps(p)[k], Partial(p, k, v))
  }

  /** The first `k` steps can all be taken. */
  predicate ReadySoFar(p: Plan, k: nat, v: Server)
    requires k <= |Steps(p)|
  {
    forall j :: 0 <= j < k ==> ReadyAt(p, j, v)
  }

  lemma ShapeBeforeUpdate(p: Plan, v: Server)
    ensures var w := Shape(p, |Steps(p)| - 1, v);
            && w.roles.Keys == v.roles.Keys + {p.role, p.user} && p.db in w.databases
            && w.schemas == BaseSchemas(p, v) && w.strictSchemas == v.strictSchemas && w.refused == v.refused
  {}

  /** The last step is ready if what the spec names exists or will. */
  lemma UpdateReadyExactly(p: Plan, v: Server, w: Server)
    requires w.roles.Keys == v.roles.Keys + {p.role, p.user} && p.db in w.databases
    requires w.schemas == BaseSchemas(p, v) && w.strictSchemas == v.strictSchemas && w.refused == v.refused
    ensures StepReady(p, UpdateDatabase, w) <==> OwnersKnown(p, v) && DefaultSpecsFit(p, v)
  {
    forall d | d in p.defaults ensures DefaultSpecReady(p, d, w) <==> DefaultSpecFits(p, d, v) {
      assert d.schema == "" || ((p.db, d.schema) in w.schemas <==> SchemaThere(p, d.schema, v));
    }
    forall s | s in p.schemas
      ensures (s.owner == "" || s.owner in w.roles) <==> s.owner in v.roles.Keys + {"", p.role, p.user}
    {}
  }

  lemma ReadyImpliesCompletable(p: Plan, v: Server)
    requires ReadySoFar(p, |Steps(p)|, v)
    ensures Completable(p, v)
  {
    assert ReadyAt(p, 1, v) && ReadyAt(p, 4, v);
    if p.setDefaults {
      DefaultsReady(p, v);
    }
    var n := |Steps(p)| - 1;
    StepAt(p, n);
    assert ReadyAt(p, n, v);
    PartialShape(p, n, v);
    ShapeBeforeUpdate(p, v);
    UpdateReadyExactly(p, v, Shape(p, n, v));
  }

  lemma CompletableImpliesReady(p: Plan, v: Server, k: nat)
    requires Completable(p, v) && k < |Steps(p)|
    ensures ReadyAt(p, k, v)
  {
    PartialShape(p, k, v);
    StepAt(p, k);
    if k == |Steps(p)| - 1 {
      ShapeBeforeUpdate(p, v);
      UpdateReadyExactly(p, v, Shape(p, k, v));
    } else {
      EarlierStepReady(p, v, k);
    }
  }

  lemma EarlierStepReady(p: Plan, v: Server, k: nat)
    requires Completable(p, v) && k < |Steps(p)| - 1
    ensures StepReady(p, Steps(p)[k], Shape(p, k, v))
  {
    StepAt(p, k);
  }

  /** A fault-free pipeline gets through exactly the completable plans. */
  lemma ReadyIffCompletable(p: Plan, v: Server)
    ensures ReadySoFar(p, |Steps(p)|, v) <==> Completable(p, v)
  {
    if ReadySoFar(p, |Steps(p)|, v) {
      ReadyImpliesCompletable(p, v);
    }
    if Completable(p, v) {
      forall k | 0 <= k < |Steps(p)| ensures ReadyAt(p, k, v) {
        CompletableImpliesReady(p, v, k);
      }
    }
  }

  lemma CompletableSame(p: Plan, v: Server, w: Server)
    requires Between(v, w, Goal(p, v))
    requires p.setDefaults && v.strictSchemas ==> (SchemasThere(p, w) <==> SchemasThere(p, v))
    requires forall n :: n !in Names(p.schemas) ==> (SchemaThere(p, n, w) <==> SchemaThere(p, n, v))
    ensures Completable(p, w) <==> Completable(p, v)
  {
    assert forall r :: r in w.roles.Keys + {p.role, p.user} <==> r in v.roles.Keys + {p.role, p.user};
    assert forall r :: r in w.roles.Keys + {"", p.role, p.user} <==> r in v.roles.Keys + {"", p.role, p.user};
  }

  /** Interrupting the pipeline anywhere neither rescues nor spoils a plan. */
  lemma CompletableStable(p: Plan, v: Server, k: nat, w: Server)
    requires k < |Steps(p)| && ReadySoFar(p, k, v)
    requires Between(Partial(p, k, v), w, Partial(p, k + 1, v))
    ensures Completable(p, w) <==> Completable(p, v)
  {
    PartialBetween(p, k, v);
    PartialBetween(p, k + 1, v);
    BetweenCompose(v, Partial(p, k, v), w, Partial(p, k + 1, v), Goal(p, v));
    if k == |Steps(p)| - 1 {
      LastStepStable(p, v, k, w);
    } else {
      EarlierStepStable(p, v, k, w);
    }
    CompletableSame(p, v, w);
  }

  lemma EarlierStepStable(p: Plan, v: Server, k: nat, w: Server)
    requires k < |Steps(p)| - 1
    requires Between(Partial(p, k, v), w, Partial(p, k + 1, v))
    ensures forall n :: SchemaThere(p, n, w) <==> SchemaThere(p, n, v)
  {
    PartialShape(p, k, v);
    PartialShape(p, k + 1, v);
  }

  lemma LastStepStable(p: Plan, v: Server, k: nat, w: Server)
    requires k == |Steps(p)| - 1 && ReadySoFar(p, k, v)
    requires Between(Partial(p, k, v), w, Partial(p, k + 1, v))
    ensures p.setDefaults && v.strictSchemas ==> SchemasThere(p, w) && SchemasThere(p, v)
    ensures forall n :: n !in Names(p.schemas) ==> (SchemaThere(p, n, w) <==> SchemaThere(p, n, v))
  {
    PartialShape(p, k, v);
    PartialShape(p, k + 1, v);
    ShapeBeforeUpdate(p, v);
    LastShape(p, v);
    if p.setDefaults {
      assert ReadyAt(p, 5, v);
      DefaultsReady(p, v);
    }
    UpdateKeepsSchemas(p, v, w);
  }

  lemma UpdateKeepsSchemas(p: Plan, v: Server, w: Server)
    requires p.db in w.databases && Sub(BaseSchemas(p, v), w.schemas) && Sub(w.schemas, Goal(p, v).schemas)
    ensures forall n :: SchemaThere(p, n, v) ==> SchemaThere(p, n, w)
    ensures forall n :: n !in Names(p.schemas) ==> (SchemaThere(p, n, w) <==> SchemaThere(p, n, v))
  {
    WithSchemasKeys(BaseSchemas(p, v), p.db, p.schemas, v.admin);
  }

  /** Once the default privileges could be set, their schemas were all there. */
  lemma DefaultsReady(p: Plan, v: Server)
    requires p.setDefaults && ReadyAt(p, 5, v)
    ensures DefsTaken(p.standard, v) && (v.strictSchemas ==> SchemasThere(p, v))
  {
    PartialShape(p, 5, v);
  }
}
