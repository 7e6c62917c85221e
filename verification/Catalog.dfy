/**
 The database server as the adapters see it: an explicit abstract state, the statements the
 operator issues against it, and an adapter through which every statement may be lost, or may
 take effect while its reply is lost.
 */
module Catalog {
  import opened Text
  import opened Privileges

  // ----- State ---------------------------------------------------------------------------

  datatype Kind = Table | Sequence | Routine

  datatype Obj = Obj(db: string, schema: string, kind: Kind, name: string)

  /** The sorts of securables between which servers distinguish privileges. */
  datatype Sort = DatabaseSort | SchemaSort | TableSort | SequenceSort | RoutineSort | TypeSort

  function SortOfKind(kind: Kind): Sort {
    match kind
    case Table => TableSort
    case Sequence => SequenceSort
    case Routine => RoutineSort
  }

  datatype Securable = OnDatabase(db: string) | OnSchema(db: string, schema: string) | OnObject(obj: Obj)

  /** One atomic privilege held by one grantee. */
  datatype Holding = Holding(grantee: string, on: Securable, privilege: string)

  /** One atomic default privilege: what `grantee` gets on future objects of `creator`. */
  datatype DefaultEntry = DefaultEntry(db: string, schema: string, creator: string,
                                       objectType: string, grantee: string, privilege: string)

  datatype Server = Server(
    admin: string,                         // the operator's own login, CURRENT_USER
    strictSchemas: bool,                   // a default privilege on a missing schema is an error
    refused: set<(Sort, string)>,          // privileges that do not apply to a sort of securables
    roles: map<string, bool>,              // role name to its LOGIN flag
    memberships: set<(string, string)>,    // (member, role)
    databases: map<string, string>,        // database to owner
    schemas: map<(string, string), string>,  // (database, schema) to owner
    objects: map<Obj, string>,             // object to owner
    defaults: set<DefaultEntry>,
    held: set<Holding>,
    regrant: set<Holding>)                 // holdings WITH GRANT OPTION

  const PUBLIC := "public"

  // ----- Privilege words -----------------------------------------------------------------

  function SortOf(on: Securable): Sort {
    match on
    case OnDatabase(_) => DatabaseSort
    case OnSchema(_, _) => SchemaSort
    case OnObject(o) => SortOfKind(o.kind)
  }

  /** What ALL stands for on each sort of securables. */
  function AllOn(sort: Sort): set<string> {
    match sort
    case DatabaseSort => {"CREATE", "CONNECT", "TEMPORARY"}
    case SchemaSort => {"CREATE", "USAGE"}
    case TableSort => {"SELECT", "INSERT", "UPDATE", "DELETE", "TRUNCATE", "REFERENCES", "TRIGGER"}
    case SequenceSort => {"USAGE", "SELECT", "UPDATE"}
    case RoutineSort => {"EXECUTE"}
    case TypeSort => {"USAGE"}
  }

  /** The words of a rendered privilege list. */
  function Words(privileges: seq<string>): set<string> {
    set p | p in privileges :: Normalize(p)
  }

  function Atom(sort: Sort, p: string): set<string> {
    if p == "ALL" || p == "ALL PRIVILEGES" then AllOn(sort)
    else if p == "TEMP" then {"TEMPORARY"}
    else {p}
  }

  function Atoms(on: Securable, privileges: set<string>): set<string> {
    set p, a | p in privileges && a in Atom(SortOf(on), p) :: a
  }

  /** The server knows every one of the privileges on this sort of securables. */
  predicate Takes(v: Server, sort: Sort, privileges: set<string>) {
    forall p :: p in privileges ==> (sort, p) !in v.refused
  }

  /** What PostgreSQL refuses of the allowlist: whatever is no part of ALL on that sort. */
  function PgRefused(): set<(Sort, string)> {
    set sort, p | sort in {DatabaseSort, SchemaSort, TableSort, SequenceSort, RoutineSort, TypeSort}
                  && p in PgPrivileges() && !(Atom(sort, p) <= AllOn(sort)) :: (sort, p)
  }

  // ----- Statements ----------------------------------------------------------------------

  datatype Target =
    | ToDatabase(db: string)
    | ToSchema(db: string, schema: string)
    | ToAllTables(db: string, schema: string)
    | ToObject(obj: Obj)

  datatype Stmt =
    | CreateRole(role: string, login: bool)
    | DropRoleIfExists(role: string)
    | GrantMembership(role: string, member: string)
    | RevokeMembership(role: string, member: string)
    | CreateDatabase(db: string, owner: string)
    | AlterOwner(db: string, owner: string)
    | SelectOne(db: string)
    | CreateSchema(db: string, schema: string, owner: string)
    | AlterDefault(db: string, schema: string, creator: string, objectType: string,
                   privileges: set<string>, grantee: string, runAs: string)
    | ReassignOwned(role: string)
    | DropOwned(role: string)
    | GrantOn(target: Target, privileges: set<string>, grantee: string, withOption: bool)
    | RevokeOn(target: Target, privileges: set<string>, grantee: string)

  /** The securables a grant target names, given the objects that exist. */
  function Named(target: Target, objects: map<Obj, string>): set<Securable> {
    match target
    case ToDatabase(db) => {OnDatabase(db)}
    case ToSchema(db, schema) => {OnSchema(db, schema)}
    case ToAllTables(db, schema) =>
      set o | o in objects && o.db == db && o.schema == schema && o.kind == Table :: OnObject(o)
    case ToObject(o) => {OnObject(o)}
  }

  function Holdings(target: Target, privileges: set<string>, grantee: string,
                    objects: map<Obj, string>): set<Holding> {
    set x, a | x in Named(target, objects) && a in Atoms(x, privileges) :: Holding(grantee, x, a)
  }

  function DefaultEntries(db: string, schema: string, creator: string, objectType: string,
                          privileges: set<string>, grantee: string): set<DefaultEntry> {
    set p | p in privileges :: DefaultEntry(db, schema, creator, objectType, grantee, p)
  }

  function AddIfMissing<K, V>(m: map<K, V>, k: K, v: V): map<K, V> {
    if k in m then m else m[k := v]
  }

  /** `role` still owns something or is named by a privilege, so it cannot be dropped. */
  predicate Referenced(role: string, v: Server) {
    || role in v.databases.Values
    || role in v.schemas.Values
    || role in v.objects.Values
    || (exists h :: h in v.held && h.grantee == role)
    || (exists d :: d in v.defaults && (d.creator == role || d.grantee == role))
  }

  /** The sort whose future members a default privilege is about. */
  function SortOfType(objectType: string): Sort {
    if objectType == "tables" then TableSort
    else if objectType == "sequences" then SequenceSort
    else if objectType == "functions" then RoutineSort
    else if objectType == "schemas" then SchemaSort
    else TypeSort
  }

  function SortOfTarget(target: Target): Sort {
    match target
    case ToDatabase(_) => DatabaseSort
    case ToSchema(_, _) => SchemaSort
    case ToAllTables(_, _) => TableSort
    case ToObject(o) => SortOfKind(o.kind)
  }

  predicate TargetExists(target: Target, v: Server) {
    match target
    case ToDatabase(db) => db in v.databases
    case ToSchema(db, schema) => (db, schema) in v.schemas
    case ToAllTables(db, schema) => (db, schema) in v.schemas
    case ToObject(o) => o in v.objects
  }

  /** The server accepts the statement in this state. */
  predicate Legal(s: Stmt, v: Server) {
    match s
    case CreateRole(role, _) => role !in v.roles
    case DropRoleIfExists(role) => role in v.roles ==> !Referenced(role, v)
    case GrantMembership(role, member) => role in v.roles && member in v.roles && role != member
    case RevokeMembership(role, member) => role in v.roles && member in v.roles
    case CreateDatabase(db, owner) => db !in v.databases && owner in v.roles
    case AlterOwner(db, owner) => db in v.databases && owner in v.roles
    case SelectOne(db) => db in v.databases
    case CreateSchema(db, _, owner) => db in v.databases && (owner == "" || owner in v.roles)
    case AlterDefault(db, schema, creator, objectType, privileges, grantee, runAs) =>
      && db in v.databases && grantee != "" && grantee in v.roles
      && (creator == "" || creator in v.roles)
      && (runAs == "" || runAs in v.roles)
      && (v.strictSchemas && schema != "" ==> (db, schema) in v.schemas)
      && Takes(v, SortOfType(objectType), privileges)
    case ReassignOwned(role) => role in v.roles
    case DropOwned(role) => role in v.roles
    case GrantOn(target, privileges, grantee, _) =>
      grantee in v.roles && TargetExists(target, v) && Takes(v, SortOfTarget(target), privileges)
    case RevokeOn(target, privileges, grantee) =>
      grantee in v.roles && TargetExists(target, v) && Takes(v, SortOfTarget(target), privileges)
  }

  /** The state after an accepted statement. */
  function Effect(s: Stmt, v: Server): Server {
    match s
    case CreateRole(role, login) => v.(roles := v.roles[role := login])
    case DropRoleIfExists(role) =>
      v.(roles := v.roles - {role},
         memberships := (set m | m in v.memberships && m.0 != role && m.1 != role))
    case GrantMembership(role, member) => v.(memberships := v.memberships + {(member, role)})
    case RevokeMembership(role, member) => v.(memberships := v.memberships - {(member, role)})
    case CreateDatabase(db, owner) =>
      v.(databases := v.databases[db := owner], schemas := AddIfMissing(v.schemas, (db, PUBLIC), v.admin))
    case AlterOwner(db, owner) => v.(databases := v.databases[db := owner])
    case SelectOne(_) => v
    case CreateSchema(db, schema, owner) =>
      v.(schemas := AddIfMissing(v.schemas, (db, schema), if owner == "" then v.admin else owner))
    case AlterDefault(db, schema, creator, objectType, privileges, grantee, runAs) =>
      var actor := if creator != "" then creator else if runAs != "" then runAs else v.admin;
      v.(defaults := v.defaults + DefaultEntries(db, schema, actor, objectType, privileges, grantee))
    case ReassignOwned(role) =>
      v.(databases := Reassign(v.databases, role, v.admin),
         schemas := Reassign(v.schemas, role, v.admin),
         objects := Reassign(v.objects, role, v.admin))
    case DropOwned(role) =>
      v.(schemas := (map k | k in v.schemas && v.schemas[k] != role :: v.schemas[k]),
         objects := (map o | o in v.objects && v.objects[o] != role :: v.objects[o]),
         held := (set h | h in v.held && h.grantee != role),
         regrant := (set h | h in v.regrant && h.grantee != role),
         defaults := (set d | d in v.defaults && d.creator != role && d.grantee != role))
    case GrantOn(target, privileges, grantee, withOption) =>
      var hs := Holdings(target, privileges, grantee, v.objects);
      v.(held := v.held + hs, regrant := if withOption then v.regrant + hs else v.regrant)
    case RevokeOn(target, privileges, grantee) =>
      var hs := Holdings(target, privileges, grantee, v.objects);
      v.(held := v.held - hs, regrant := v.regrant - hs)
  }

  function Reassign<K>(owners: map<K, string>, from: string, to: string): map<K, string> {
    map k | k in owners :: if owners[k] == from then to else owners[k]
  }

  // ----- Default privilege options --------------------------------------------------------

  datatype DefaultOption = DefaultOption(db: string, schema: string, grantedBy: string, objectType: string,
                                         privileges: seq<string>)

  const OBJECT_TYPES: seq<string> := ["tables", "sequences", "functions", "types", "schemas"]

  /** The object types a default privilege can be about. */
  lemma ObjectTypesLiterally(t: string)
    ensures Listed(t, OBJECT_TYPES) <==> t in {"tables", "sequences", "functions", "types", "schemas"}
  {
    var list := OBJECT_TYPES;
    if Listed(t, list) {
      ListedIn(t, list, 0);
    }
    forall i | 0 <= i < |list| ensures Listed(list[i], list) {
      ListedAt(list, i);
    }
    assert list[0] == "tables" && list[1] == "sequences" && list[2] == "functions" && list[3] == "types";
    assert list[4] == "schemas";
  }

  predicate Buildable(opt: DefaultOption) {
    Listed(ToLower(opt.objectType), OBJECT_TYPES) && ValidPrivileges(opt.privileges, PgDialect)
  }

  function DefaultStmt(configured: string, grantee: string, opt: DefaultOption): Stmt {
    AlterDefault(if opt.db == "" then configured else opt.db, opt.schema, opt.grantedBy,
                 ToLower(opt.objectType), Words(opt.privileges), grantee, "")
  }

  // ----- The adapter ---------------------------------------------------------------------

  /** What happens to one call: nothing special, lost on the way out, or lost on the way back. */
  datatype Fault = NoFault | RequestLost | ReplyLost

  function NextFault(faults: seq<Fault>): Fault {
    if faults == [] then NoFault else faults[0]
  }

  /** State after a call that met `fault`: an error is reported in all but the first case. */
  function After(fault: Fault, s: Stmt, v: Server): Server {
    if fault != RequestLost && Legal(s, v) then Effect(s, v) else v
  }

  class Adapter {
    const database: string          // the configured database, used where an option names none
    var server: Server
    var faults: seq<Fault>          // what will happen to the coming calls; [] means no more faults
    ghost var seen: set<Server>     // every server state there has been after a call

    constructor (database: string, server: Server, faults: seq<Fault>)
      ensures this.database == database && this.server == server && this.faults == faults && seen == {}
    {
      this.database, this.server, this.faults, seen := database, server, faults, {};
    }

    /** Runs one statement. */
    method Exec(s: Stmt) returns (ok: bool)
      modifies this
      ensures server == After(NextFault(old(faults)), s, old(server))
      ensures ok == (NextFault(old(faults)) == NoFault && Legal(s, old(server)))
      ensures faults == if old(faults) == [] then [] else old(faults)[1..]
      ensures seen == old(seen) + {server}
    {
      var fault := NextFault(faults);
      ok := fault == NoFault && Legal(s, server);
      if fault != RequestLost && Legal(s, server) {
        server := Effect(s, server);
      }
      if faults != [] {
        faults := faults[1..];
      }
      seen := seen + {server};
    }

    /** Runs one catalog query: it changes nothing and fails only by a fault. */
    method Query() returns (ok: bool)
      modifies this
      ensures server == old(server)
      ensures ok == (NextFault(old(faults)) == NoFault)
      ensures faults == if old(faults) == [] then [] else old(faults)[1..]
      ensures seen == old(seen) + {server}
    {
      ok := NextFault(faults) == NoFault;
      if faults != [] {
        faults := faults[1..];
      }
      seen := seen + {server};
    }

    method RoleExists(role: string) returns (ok: bool, found: bool)
      modifies this
      ensures server == old(server)
      ensures ok == (NextFault(old(faults)) == NoFault)
      ensures ok ==> found == (role in server.roles)
      ensures faults == if old(faults) == [] then [] else old(faults)[1..]
      ensures seen == old(seen) + {server}
    {
      ok := Query();
      found := role in server.roles;
    }

    /** One ALTER DEFAULT PRIVILEGES; an option the builder refuses is never sent. */
    method SetDefaultPrivilege(grantee: string, opt: DefaultOption) returns (ok: bool)
      modifies this
      ensures !Buildable(opt) ==> !ok && server == old(server) && faults == old(faults) && seen == old(seen)
      ensures Buildable(opt) ==>
                && server == After(NextFault(old(faults)), DefaultStmt(database, grantee, opt), old(server))
                && ok == (NextFault(old(faults)) == NoFault && Legal(DefaultStmt(database, grantee, opt), old(server)))
                && faults == (if old(faults) == [] then [] else old(faults)[1..])
                && seen == old(seen) + {server}
    {
      if !Listed(ToLower(opt.objectType), OBJECT_TYPES) || !ValidPrivileges(opt.privileges, PgDialect) {
        return false;
      }
      var db := if opt.db == "" then database else opt.db;
      ok := Exec(AlterDefault(db, opt.schema, opt.grantedBy, ToLower(opt.objectType), Words(opt.privileges), grantee,
                              ""));
    }
  }
}
