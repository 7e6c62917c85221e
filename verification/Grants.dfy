/**
 Granting and revoking on CockroachDB: one option record expands into many statements, and revoking
 expands it by a different case analysis. The footprint of each side is described as a set of
 holdings, and the two are compared.
 */
module Grants {
  import opened Text
  import opened Privileges
  import opened Catalog

  datatype GrantOption = GrantOption(db: string, schema: string, tables: seq<string>, sequences: seq<string>,
                                     functions: seq<string>, privileges: seq<string>, withGrantOption: bool)

  // ----- Case analysis on an option -----------------------------------------------------------------

  function DbOf(opt: GrantOption, configured: string): string {
    if opt.db == "" then configured else opt.db
  }

  predicate NoObjects(opt: GrantOption) {
    opt.tables == [] && opt.sequences == [] && opt.functions == []
  }

  predicate DatabaseLevel(opt: GrantOption) {
    opt.schema == "" && NoObjects(opt) && opt.privileges != []
  }

  predicate SchemaOnly(opt: GrantOption) {
    opt.schema != "" && NoObjects(opt)
  }

  function TableWords(): seq<string> {
    ["SELECT", "INSERT", "UPDATE", "DELETE", "TRUNCATE", "REFERENCES", "TRIGGER", "ALL"]
  }

  /** Some privilege is spelled as a table keyword; surrounding space hides it. */
  predicate HasTablePrivilege(privileges: seq<string>) {
    exists p :: p in privileges && Listed(ToUpper(p), TableWords())
  }

  /** An unqualified name is looked up in public. */
  function Located(db: string, schema: string, kind: Kind, name: string): Obj {
    Obj(db, if schema == "" then PUBLIC else schema, kind, name)
  }

  // ----- When the server takes an option ------------------------------------------------------------

  /** An option for which neither side has a statement to send. */
  predicate Empty(opt: GrantOption) {
    opt.schema == "" && NoObjects(opt) && opt.privileges == []
  }

  /** Revoking starts with a statement on all tables of the schema. */
  predicate SchemaWide(opt: GrantOption) {
    opt.schema != "" && opt.tables == []
  }

  /** The server has all the objects, and knows the privileges on their sort. */
  ghost predicate NamesTaken(db: string, schema: string, kind: Kind, names: seq<string>, words: set<string>,
                             v: Server) {
    || names == []
    || (Takes(v, SortOfKind(kind), words) && forall n :: n in names ==> Located(db, schema, kind, n) in v.objects)
  }

  ghost predicate ListedTaken(db: string, opt: GrantOption, v: Server) {
    && NamesTaken(db, opt.schema, Table, opt.tables, Words(opt.privileges), v)
    && NamesTaken(db, opt.schema, Sequence, opt.sequences, Words(opt.privileges), v)
    && NamesTaken(db, opt.schema, Routine, opt.functions, Words(opt.privileges), v)
  }

  predicate DatabaseTaken(db: string, opt: GrantOption, v: Server) {
    db in v.databases && Takes(v, DatabaseSort, Words(opt.privileges))
  }

  /** The server takes a statement about the option's privileges on all tables of its schema. */
  predicate TablesTaken(db: string, opt: GrantOption, v: Server) {
    (db, opt.schema) in v.schemas && Takes(v, TableSort, Words(opt.privileges))
  }

  /** The server takes a GRANT of USAGE on the option's schema. */
  predicate UsageTaken(db: string, opt: GrantOption, v: Server) {
    (db, opt.schema) in v.schemas && Takes(v, SchemaSort, {"USAGE"})
  }

  /** When a grant without faults completes: keywords matter only where one is sent. */
  ghost predicate GrantAccepted(grantee: string, db: string, opt: GrantOption, v: Server) {
    Empty(opt) || (
      && grantee in v.roles
      && (DatabaseLevel(opt) ==> DatabaseTaken(db, opt, v))
      && (SchemaOnly(opt) ==> UsageTaken(db, opt, v))
      && (SchemaOnly(opt) && HasTablePrivilege(opt.privileges) ==> TablesTaken(db, opt, v))
      && (ValidPrivileges(opt.privileges, PgDialect) || (SchemaOnly(opt) && !HasTablePrivilege(opt.privileges)))
      && ListedTaken(db, opt, v))
  }

  /** The first statement of a revoke can be built and is legal. */
  ghost predicate RevokeStarts(grantee: string, db: string, opt: GrantOption, v: Server) {
    && grantee in v.roles && ValidPrivileges(opt.privileges, PgDialect)
    && (DatabaseLevel(opt) ==> DatabaseTaken(db, opt, v))
    && (SchemaWide(opt) ==> TablesTaken(db, opt, v))
  }

  /** When a revoke without faults completes. */
  ghost predicate RevokeAccepted(grantee: string, db: string, opt: GrantOption, v: Server) {
    Empty(opt) || (RevokeStarts(grantee, db, opt, v) && ListedTaken(db, opt, v))
  }

  /** The revoke fails and leaves the server as it is. */
  ghost predicate RefusedOutright(grantee: string, db: string, opt: GrantOption, v: Server) {
    !Empty(opt) && !RevokeStarts(grantee, db, opt, v)
  }

  /**
   What a granted option needs in order to be revoked, beyond what granting asked for: if it names a
   schema and lists no table, its privileges must be on the allowlist and apply to tables, even where it
   was granted on sequences, on functions or on the schema alone.
   */
  predicate Revocable(db: string, opt: GrantOption, v: Server) {
    SchemaWide(opt) ==> ValidPrivileges(opt.privileges, PgDialect) && TablesTaken(db, opt, v)
  }

  /** Once granted, an option is revoked in full if it is revocable, and otherwise not at all. */
  lemma RevocableExactly(grantee: string, db: string, opt: GrantOption, v: Server)
    requires GrantAccepted(grantee, db, opt, v)
    ensures RevokeAccepted(grantee, db, opt, v) <==> Revocable(db, opt, v)
    ensures RefusedOutright(grantee, db, opt, v) <==> !Revocable(db, opt, v)
  {}

  /** `w` is `v` but for the privileges held. */
  predicate SameCatalog(v: Server, w: Server) {
    && w.roles == v.roles && w.databases == v.databases && w.schemas == v.schemas && w.objects == v.objects
    && w.admin == v.admin && w.strictSchemas == v.strictSchemas && w.refused == v.refused
  }

  lemma AcceptanceSame(grantee: string, db: string, opt: GrantOption, v: Server, w: Server)
    requires SameCatalog(v, w)
    ensures GrantAccepted(grantee, db, opt, w) <==> GrantAccepted(grantee, db, opt, v)
    ensures RevokeAccepted(grantee, db, opt, w) <==> RevokeAccepted(grantee, db, opt, v)
    ensures RefusedOutright(grantee, db, opt, w) <==> RefusedOutright(grantee, db, opt, v)
  {
    assert ListedTaken(db, opt, w) <==> ListedTaken(db, opt, v);
  }

  // ----- Footprints -----------------------------------------------------------------------------------

  function OnNamed(grantee: string, db: string, schema: string, kind: Kind, names: seq<string>,
                   words: set<string>): set<Holding> {
    set n, h | n in names && h in Holdings(ToObject(Located(db, schema, kind, n)), words, grantee, map[]) :: h
  }

  function OnListed(grantee: string, db: string, opt: GrantOption): set<Holding> {
    OnNamed(grantee, db, opt.schema, Table, opt.tables, Words(opt.privileges))
    + OnNamed(grantee, db, opt.schema, Sequence, opt.sequences, Words(opt.privileges))
    + OnNamed(grantee, db, opt.schema, Routine, opt.functions, Words(opt.privileges))
  }

  function OnSchemaTables(grantee: string, db: string, opt: GrantOption, objects: map<Obj, string>): set<Holding> {
    Holdings(ToAllTables(db, opt.schema), Words(opt.privileges), grantee, objects)
  }

  function OnWholeDatabase(grantee: string, db: string, opt: GrantOption): set<Holding> {
    Holdings(ToDatabase(db), Words(opt.privileges), grantee, map[])
  }

  /** The USAGE that a schema-only option grants beside the tables. */
  function Usage(grantee: string, db: string, opt: GrantOption): set<Holding> {
    if SchemaOnly(opt) then {Holding(grantee, OnSchema(db, opt.schema), "USAGE")} else {}
  }

  /** What granting adds, apart from schema USAGE. */
  function GrantedBeside(grantee: string, db: string, opt: GrantOption, objects: map<Obj, string>): set<Holding> {
    if DatabaseLevel(opt) then OnWholeDatabase(grantee, db, opt)
    else if SchemaOnly(opt) then
      if HasTablePrivilege(opt.privileges) then OnSchemaTables(grantee, db, opt, objects) else {}
    else OnListed(grantee, db, opt)
  }

  function Granted(grantee: string, db: string, opt: GrantOption, objects: map<Obj, string>): set<Holding> {
    GrantedBeside(grantee, db, opt, objects) + Usage(grantee, db, opt)
  }

  /** What granting makes grantable to others. */
  function Regranted(grantee: string, db: string, opt: GrantOption, objects: map<Obj, string>): set<Holding> {
    if opt.withGrantOption then GrantedBeside(grantee, db, opt, objects) else {}
  }

  /** What revoking removes. */
  function Revoked(grantee: string, db: string, opt: GrantOption, objects: map<Obj, string>): set<Holding> {
    if DatabaseLevel(opt) then OnWholeDatabase(grantee, db, opt)
    else OnListed(grantee, db, opt)
         + (if opt.schema != "" && opt.tables == [] then OnSchemaTables(grantee, db, opt, objects) else {})
  }

  // ----- Comparing the two sides -------------------------------------------------------------------------

  /** Revoking covers everything granting added, schema USAGE excepted, and never that. */
  lemma RevokeCoversGrant(grantee: string, db: string, opt: GrantOption, objects: map<Obj, string>)
    ensures GrantedBeside(grantee, db, opt, objects) <= Revoked(grantee, db, opt, objects)
    ensures Regranted(grantee, db, opt, objects) <= Revoked(grantee, db, opt, objects)
    ensures forall h :: h in Revoked(grantee, db, opt, objects) ==> !h.on.OnSchema?
  {}

  /** Every holding belongs to the grantee and lies in the database. */
  ghost predicate Confined(hs: set<Holding>, grantee: string, db: string) {
    forall h :: h in hs ==> h.grantee == grantee && DbOfSecurable(h.on) == db
  }

  lemma HoldingsConfined(target: Target, words: set<string>, grantee: string, db: string, objects: map<Obj, string>)
    requires match target
             case ToDatabase(d) => d == db
             case ToSchema(d, _) => d == db
             case ToAllTables(d, _) => d == db
             case ToObject(o) => o.db == db
    ensures Confined(Holdings(target, words, grantee, objects), grantee, db)
  {}

  lemma NamedConfined(grantee: string, db: string, schema: string, kind: Kind, names: seq<string>, words: set<string>)
    ensures Confined(OnNamed(grantee, db, schema, kind, names, words), grantee, db)
  {
    forall h | h in OnNamed(grantee, db, schema, kind, names, words)
      ensures h.grantee == grantee && DbOfSecurable(h.on) == db
    {
      var n :| n in names && h in Holdings(ToObject(Located(db, schema, kind, n)), words, grantee, map[]);
      HoldingsConfined(ToObject(Located(db, schema, kind, n)), words, grantee, db, map[]);
    }
  }

  /** Both sides stay with the grantee and the option's database. */
  lemma FootprintsConfined(grantee: string, db: string, opt: GrantOption, objects: map<Obj, string>)
    ensures Confined(Granted(grantee, db, opt, objects), grantee, db)
    ensures Confined(Revoked(grantee, db, opt, objects), grantee, db)
  {
    var words := Words(opt.privileges);
    NamedConfined(grantee, db, opt.schema, Table, opt.tables, words);
    NamedConfined(grantee, db, opt.schema, Sequence, opt.sequences, words);
    NamedConfined(grantee, db, opt.schema, Routine, opt.functions, words);
    HoldingsConfined(ToAllTables(db, opt.schema), words, grantee, db, objects);
    HoldingsConfined(ToDatabase(db), words, grantee, db, map[]);
  }

  function DbOfSecurable(on: Securable): string {
    match on
    case OnDatabase(db) => db
    case OnSchema(db, _) => db
    case OnObject(o) => o.db
  }

  /** An option that lists tables revokes on its listed objects only. */
  lemma ListedTablesBoundRevoke(grantee: string, db: string, opt: GrantOption, objects: map<Obj, string>)
    requires opt.tables != []
    ensures Revoked(grantee, db, opt, objects) == OnListed(grantee, db, opt)
    ensures Granted(grantee, db, opt, objects) == OnListed(grantee, db, opt)
  {}

  /** Revoking reaches all tables of the schema although granting did not. */
  predicate Uneven(opt: GrantOption) {
    SchemaWide(opt) && (opt.sequences != [] || opt.functions != [] || !HasTablePrivilege(opt.privileges))
  }

  lemma SchemaTablesAreTables(grantee: string, db: string, opt: GrantOption, objects: map<Obj, string>, h: Holding)
    requires h in OnSchemaTables(grantee, db, opt, objects)
    ensures h.on.OnObject? && h.on.obj.kind == Table
  {}

  lemma ListedKinds(grantee: string, db: string, opt: GrantOption, h: Holding)
    requires opt.tables == [] && h in OnListed(grantee, db, opt)
    ensures h.on.OnObject? && h.on.obj.kind != Table
  {}

  lemma UnevenFootprint(grantee: string, db: string, opt: GrantOption, objects: map<Obj, string>, h: Holding)
    requires Uneven(opt)
    ensures h in OnSchemaTables(grantee, db, opt, objects)
            <==> h in Revoked(grantee, db, opt, objects) && h !in Granted(grantee, db, opt, objects)
  {
    if h in OnSchemaTables(grantee, db, opt, objects) {
      SchemaTablesAreTables(grantee, db, opt, objects, h);
      if h in OnListed(grantee, db, opt) {
        ListedKinds(grantee, db, opt, h);
      }
    } else if SchemaOnly(opt) {
      assert OnListed(grantee, db, opt) == {};
    }
  }

  lemma EvenFootprint(grantee: string, db: string, opt: GrantOption, objects: map<Obj, string>)
    requires !Uneven(opt)
    ensures Revoked(grantee, db, opt, objects) <= Granted(grantee, db, opt, objects)
  {
    if SchemaOnly(opt) {
      assert OnListed(grantee, db, opt) == {};
    }
  }

  // ----- Statements ----------------------------------------------------------------------------------------

  function StmtHoldings(s: Stmt, objects: map<Obj, string>): set<Holding> {
    match s
    case GrantOn(target, words, grantee, _) => Holdings(target, words, grantee, objects)
    case RevokeOn(target, words, grantee) => Holdings(target, words, grantee, objects)
    case _ => {}
  }

  function AllHoldings(stmts: seq<Stmt>, objects: map<Obj, string>): set<Holding> {
    set s, h | s in stmts && h in StmtHoldings(s, objects) :: h
  }

  lemma AllHoldingsSnoc(stmts: seq<Stmt>, s: Stmt, objects: map<Obj, string>)
    ensures AllHoldings(stmts + [s], objects) == AllHoldings(stmts, objects) + StmtHoldings(s, objects)
  {}

  lemma HoldingsOfOne(s: Stmt, objects: map<Obj, string>)
    ensures AllHoldings([s], objects) == StmtHoldings(s, objects)
    ensures OptionHoldings([s], objects) == StmtOptions(s, objects)
  {}

  lemma AllHoldingsStep(stmts: seq<Stmt>, i: nat, objects: map<Obj, string>)
    requires i < |stmts|
    ensures AllHoldings(stmts[..i + 1], objects) == AllHoldings(stmts[..i], objects) + StmtHoldings(stmts[i], objects)
    ensures AllHoldings(stmts[..i + 1], objects) <= AllHoldings(stmts, objects)
  {
    assert stmts[..i + 1] == stmts[..i] + [stmts[i]];
    AllHoldingsSnoc(stmts[..i], stmts[i], objects);
    assert stmts == stmts[..i + 1] + stmts[i + 1..];
  }

  lemma OnNamedSnoc(grantee: string, db: string, schema: string, kind: Kind, names: seq<string>, n: string,
                    words: set<string>)
    ensures OnNamed(grantee, db, schema, kind, names + [n], words)
         == OnNamed(grantee, db, schema, kind, names, words)
            + Holdings(ToObject(Located(db, schema, kind, n)), words, grantee, map[])
  {}

  function NamedStmt(grant: bool, grantee: string, db: string, opt: GrantOption, kind: Kind, name: string): Stmt {
    var target := ToObject(Located(db, opt.schema, kind, name));
    if grant then GrantOn(target, Words(opt.privileges), grantee, opt.withGrantOption)
    else RevokeOn(target, Words(opt.privileges), grantee)
  }

  /** One GRANT or REVOKE per listed name. */
  function NamedStmts(grant: bool, grantee: string, db: string, opt: GrantOption, kind: Kind,
                      names: seq<string>): seq<Stmt> {
    if names == [] then []
    else
      var rest, n := names[..|names| - 1], names[|names| - 1];
      NamedStmts(grant, grantee, db, opt, kind, rest) + [NamedStmt(grant, grantee, db, opt, kind, n)]
  }

  lemma NamedStmtHoldings(grant: bool, grantee: string, db: string, opt: GrantOption, kind: Kind, name: string,
                          objects: map<Obj, string>)
    ensures var s, on := NamedStmt(grant, grantee, db, opt, kind, name),
                         Holdings(ToObject(Located(db, opt.schema, kind, name)), Words(opt.privileges), grantee, map[]);
            && StmtHoldings(s, objects) == on
            && StmtOptions(s, objects) == if grant && opt.withGrantOption then on else {}
  {}

  lemma {:induction false} NamedStmtsHoldings(grant: bool, grantee: string, db: string, opt: GrantOption, kind: Kind,
                                             names: seq<string>, objects: map<Obj, string>)
    ensures var stmts, on := NamedStmts(grant, grantee, db, opt, kind, names),
                             OnNamed(grantee, db, opt.schema, kind, names, Words(opt.privileges));
            && Uniform(stmts, grant, grantee) && AllHoldings(stmts, objects) == on
            && OptionHoldings(stmts, objects) == (if grant && opt.withGrantOption then on else {})
  {
    if names == [] {
    } else {
      var rest, n := names[..|names| - 1], names[|names| - 1];
      var s := NamedStmt(grant, grantee, db, opt, kind, n);
      NamedStmtHoldings(grant, grantee, db, opt, kind, n, objects);
      NamedStmtsHoldings(grant, grantee, db, opt, kind, rest, objects);
      assert names == rest + [n];
      OnNamedSnoc(grantee, db, opt.schema, kind, rest, n, Words(opt.privileges));
      AllHoldingsSnoc(NamedStmts(grant, grantee, db, opt, kind, rest), s, objects);
      OptionHoldingsSnoc(NamedStmts(grant, grantee, db, opt, kind, rest), s, objects);
    }
  }

  method AppendNamed(stmts0: seq<Stmt>, grant: bool, grantee: string, db: string, opt: GrantOption, kind: Kind,
                     names: seq<string>)
    returns (ok: bool, stmts: seq<Stmt>)
    ensures ok == (names == [] || ValidPrivileges(opt.privileges, PgDialect))
    ensures ok ==> stmts == stmts0 + NamedStmts(grant, grantee, db, opt, kind, names)
  {
    stmts := stmts0;
    for i := 0 to |names|
      invariant stmts == stmts0 + NamedStmts(grant, grantee, db, opt, kind, names[..i])
      invariant i > 0 ==> ValidPrivileges(opt.privileges, PgDialect)
    {
      if !ValidPrivileges(opt.privileges, PgDialect) {
        return false, [];
      }
      assert names[..i + 1][..i] == names[..i];
      stmts := stmts + [NamedStmt(grant, grantee, db, opt, kind, names[i])];
    }
    assert names[..|names|] == names;
    ok := true;
  }

  lemma HoldingsConcat(x: seq<Stmt>, y: seq<Stmt>, objects: map<Obj, string>)
    ensures AllHoldings(x + y, objects) == AllHoldings(x, objects) + AllHoldings(y, objects)
    ensures OptionHoldings(x + y, objects) == OptionHoldings(x, objects) + OptionHoldings(y, objects)
  {}

  function OptionHoldings(stmts: seq<Stmt>, objects: map<Obj, string>): set<Holding> {
    set s, h | s in stmts && s.GrantOn? && s.withOption && h in StmtHoldings(s, objects) :: h
  }

  function StmtOptions(s: Stmt, objects: map<Obj, string>): set<Holding> {
    if s.GrantOn? && s.withOption then StmtHoldings(s, objects) else {}
  }

  lemma OptionHoldingsSnoc(stmts: seq<Stmt>, s: Stmt, objects: map<Obj, string>)
    ensures OptionHoldings(stmts + [s], objects) == OptionHoldings(stmts, objects) + StmtOptions(s, objects)
  {}

  lemma OptionHoldingsStep(stmts: seq<Stmt>, i: nat, objects: map<Obj, string>)
    requires i < |stmts|
    ensures OptionHoldings(stmts[..i + 1], objects)
         == OptionHoldings(stmts[..i], objects) + StmtOptions(stmts[i], objects)
    ensures OptionHoldings(stmts[..i + 1], objects) <= OptionHoldings(stmts, objects)
  {
    assert stmts[..i + 1] == stmts[..i] + [stmts[i]];
    OptionHoldingsSnoc(stmts[..i], stmts[i], objects);
    assert stmts == stmts[..i + 1] + stmts[i + 1..];
  }

  /** All statements grant to, or all revoke from, one grantee. */
  predicate Uniform(stmts: seq<Stmt>, grant: bool, grantee: string) {
    forall s :: s in stmts ==> if grant then s.GrantOn? && s.grantee == grantee else s.RevokeOn? && s.grantee == grantee
  }

  // ----- Execution ---------------------------------------------------------------------------------------------

  /** Granting, however far it gets: holdings only grow, by no more than `adds`. */
  predicate GrantOutcome(v: Server, w: Server, adds: set<Holding>, options: set<Holding>, ok: bool) {
    && w == v.(held := w.held, regrant := w.regrant)
    && v.held <= w.held <= v.held + adds && v.regrant <= w.regrant <= v.regrant + options
    && (ok ==> w.held == v.held + adds && w.regrant == v.regrant + options)
  }

  /** Revoking, however far it gets: holdings only shrink, by no more than `gone`. */
  predicate RevokeOutcome(v: Server, w: Server, gone: set<Holding>, ok: bool) {
    && w == v.(held := w.held, regrant := w.regrant)
    && v.held - gone <= w.held <= v.held && v.regrant - gone <= w.regrant <= v.regrant
    && (ok ==> w.held == v.held - gone && w.regrant == v.regrant - gone)
  }

  lemma GrantChain(v: Server, u: Server, w: Server, e: set<Holding>, o: set<Holding>, e1: set<Holding>,
                   o1: set<Holding>,
                   e2: set<Holding>, o2: set<Holding>, all: set<Holding>, allo: set<Holding>, ok: bool)
    requires GrantOutcome(v, u, e, o, true) && GrantOutcome(u, w, e1, o1, ok)
    requires e2 == e + e1 && o2 == o + o1 && e2 <= all && o2 <= allo
    ensures GrantOutcome(v, w, all, allo, false) && (ok ==> GrantOutcome(v, w, e2, o2, true))
  {}

  lemma RevokeChain(v: Server, u: Server, w: Server, e: set<Holding>, e1: set<Holding>, e2: set<Holding>,
                    all: set<Holding>, ok: bool)
    requires RevokeOutcome(v, u, e, true) && RevokeOutcome(u, w, e1, ok)
    requires e2 == e + e1 && e2 <= all
    ensures RevokeOutcome(v, w, all, false) && (ok ==> RevokeOutcome(v, w, e2, true))
  {}

  lemma SentGrant(s: Stmt, fault: Fault, v: Server)
    requires s.GrantOn?
    ensures GrantOutcome(v, After(fault, s, v), StmtHoldings(s, v.objects), StmtOptions(s, v.objects),
                         fault == NoFault && Legal(s, v))
  {}

  /** Every statement is legal; privileges held have no say in that. */
  ghost predicate AllLegal(stmts: seq<Stmt>, v: Server) {
    forall s :: s in stmts ==> Legal(s, v)
  }

  lemma LegalSame(s: Stmt, v: Server, w: Server)
    requires (s.GrantOn? || s.RevokeOn?) && SameCatalog(v, w)
    ensures Legal(s, w) <==> Legal(s, v)
  {}

  lemma AllLegalStep(stmts: seq<Stmt>, i: nat, v: Server)
    requires i < |stmts|
    ensures AllLegal(stmts[..i + 1], v) <==> AllLegal(stmts[..i], v) && Legal(stmts[i], v)
    ensures AllLegal(stmts, v) ==> Legal(stmts[i], v)
  {
    assert stmts[..i + 1] == stmts[..i] + [stmts[i]];
  }

  /** What sending a list of grants leaves behind, and when all go through. */
  ghost predicate StmtsGranted(stmts: seq<Stmt>, v: Server, w: Server, ok: bool, clean: bool) {
    && GrantOutcome(v, w, AllHoldings(stmts, v.objects), OptionHoldings(stmts, v.objects), ok)
    && (ok || clean ==> ok == AllLegal(stmts, v))
  }

  /** The same for revokes; if the first is illegal nothing changes. */
  ghost predicate StmtsRevoked(stmts: seq<Stmt>, v: Server, w: Server, ok: bool, clean: bool) {
    && RevokeOutcome(v, w, AllHoldings(stmts, v.objects), ok)
    && (ok || clean ==> ok == AllLegal(stmts, v))
    && (stmts != [] && !Legal(stmts[0], v) ==> w == v)
  }

  method ExecGrants(a: Adapter, stmts: seq<Stmt>, grantee: string) returns (ok: bool)
    requires Uniform(stmts, true, grantee)
    modifies a
    ensures StmtsGranted(stmts, old(a.server), a.server, ok, old(a.faults) == [])
    ensures old(a.faults) == [] ==> a.faults == []
  {
    ghost var v := a.server;
    var i := 0;
    while i < |stmts|
      invariant 0 <= i <= |stmts|
      invariant GrantOutcome(v, a.server, AllHoldings(stmts[..i], v.objects), OptionHoldings(stmts[..i], v.objects),
                             true)
      invariant AllLegal(stmts[..i], v)
      invariant old(a.faults) == [] ==> a.faults == []
    {
      ghost var u := a.server;
      assert stmts[i] in stmts;
      LegalSame(stmts[i], v, u);
      AllLegalStep(stmts, i, v);
      SentGrant(stmts[i], NextFault(a.faults), u);
      ok := a.Exec(stmts[i]);
      AllHoldingsStep(stmts, i, v.objects);
      OptionHoldingsStep(stmts, i, v.objects);
      GrantChain(v, u, a.server, AllHoldings(stmts[..i], v.objects), OptionHoldings(stmts[..i], v.objects),
                 StmtHoldings(stmts[i], v.objects), StmtOptions(stmts[i], v.objects),
                 AllHoldings(stmts[..i + 1], v.objects), OptionHoldings(stmts[..i + 1], v.objects),
                 AllHoldings(stmts, v.objects), OptionHoldings(stmts, v.objects), ok);
      if !ok {
        return;
      }
      i := i + 1;
    }
    assert stmts[..i] == stmts;
    ok := true;
  }

  lemma SentRevoke(s: Stmt, fault: Fault, v: Server)
    requires s.RevokeOn?
    ensures RevokeOutcome(v, After(fault, s, v), StmtHoldings(s, v.objects), fault == NoFault && Legal(s, v))
    ensures !Legal(s, v) ==> After(fault, s, v) == v
  {}

  method ExecRevokes(a: Adapter, stmts: seq<Stmt>, grantee: string) returns (ok: bool)
    requires Uniform(stmts, false, grantee)
    modifies a
    ensures StmtsRevoked(stmts, old(a.server), a.server, ok, old(a.faults) == [])
    ensures old(a.faults) == [] ==> a.faults == []
  {
    ghost var v := a.server;
    var i := 0;
    while i < |stmts|
      invariant 0 <= i <= |stmts|
      invariant RevokeOutcome(v, a.server, AllHoldings(stmts[..i], v.objects), true)
      invariant i == 0 ==> a.server == v
      invariant AllLegal(stmts[..i], v)
      invariant i > 0 ==> Legal(stmts[0], v)
      invariant old(a.faults) == [] ==> a.faults == []
    {
      ghost var u := a.server;
      assert stmts[i] in stmts;
      LegalSame(stmts[i], v, u);
      AllLegalStep(stmts, i, v);
      SentRevoke(stmts[i], NextFault(a.faults), u);
      ok := a.Exec(stmts[i]);
      AllHoldingsStep(stmts, i, v.objects);
      RevokeChain(v, u, a.server, AllHoldings(stmts[..i], v.objects), StmtHoldings(stmts[i], v.objects),
                  AllHoldings(stmts[..i + 1], v.objects), AllHoldings(stmts, v.objects), ok);
      if !ok {
        return;
      }
      i := i + 1;
    }
    assert stmts[..i] == stmts;
    ok := true;
  }

  // ----- Building the statements of one option -----------------------------------------------------------------

  function ListedStmts(grant: bool, grantee: string, db: string, opt: GrantOption): seq<Stmt> {
    NamedStmts(grant, grantee, db, opt, Table, opt.tables)
    + NamedStmts(grant, grantee, db, opt, Sequence, opt.sequences)
    + NamedStmts(grant, grantee, db, opt, Routine, opt.functions)
  }

  lemma ListedStmtsHoldings(grant: bool, grantee: string, db: string, opt: GrantOption, objects: map<Obj, string>)
    ensures var stmts, on := ListedStmts(grant, grantee, db, opt), OnListed(grantee, db, opt);
            && Uniform(stmts, grant, grantee) && AllHoldings(stmts, objects) == on
            && OptionHoldings(stmts, objects) == (if grant && opt.withGrantOption then on else {})
  {
    var t := NamedStmts(grant, grantee, db, opt, Table, opt.tables);
    var q := NamedStmts(grant, grantee, db, opt, Sequence, opt.sequences);
    var r := NamedStmts(grant, grantee, db, opt, Routine, opt.functions);
    NamedStmtsHoldings(grant, grantee, db, opt, Table, opt.tables, objects);
    NamedStmtsHoldings(grant, grantee, db, opt, Sequence, opt.sequences, objects);
    NamedStmtsHoldings(grant, grantee, db, opt, Routine, opt.functions, objects);
    HoldingsConcat(t, q, objects);
    HoldingsConcat(t + q, r, objects);
  }

  lemma NamedStmtLegal(grant: bool, grantee: string, db: string, opt: GrantOption, kind: Kind, name: string, v: Server)
    ensures Legal(NamedStmt(grant, grantee, db, opt, kind, name), v)
            <==> grantee in v.roles && NamesTaken(db, opt.schema, kind, [name], Words(opt.privileges), v)
  {
    assert Located(db, opt.schema, kind, name).kind == kind;
  }

  lemma NamesTakenSnoc(db: string, schema: string, kind: Kind, names: seq<string>, n: string, words: set<string>,
                       v: Server)
    ensures NamesTaken(db, schema, kind, names + [n], words, v)
            <==> NamesTaken(db, schema, kind, names, words, v) && NamesTaken(db, schema, kind, [n], words, v)
  {}

  lemma {:induction false} NamedStmtsLegal(grant: bool, grantee: string, db: string, opt: GrantOption, kind: Kind,
                                          names: seq<string>, v: Server)
    ensures AllLegal(NamedStmts(grant, grantee, db, opt, kind, names), v)
            <==> names == [] ||
                 (grantee in v.roles && NamesTaken(db, opt.schema, kind, names, Words(opt.privileges), v))
  {
    if names == [] {
    } else {
      var rest, n := names[..|names| - 1], names[|names| - 1];
      assert names == rest + [n];
      NamedStmtsLegal(grant, grantee, db, opt, kind, rest, v);
      NamedStmtLegal(grant, grantee, db, opt, kind, n, v);
      LegalConcat(NamedStmts(grant, grantee, db, opt, kind, rest), [NamedStmt(grant, grantee, db, opt, kind, n)], v);
      NamesTakenSnoc(db, opt.schema, kind, rest, n, Words(opt.privileges), v);
    }
  }

  lemma LegalConcat(x: seq<Stmt>, y: seq<Stmt>, v: Server)
    ensures AllLegal(x + y, v) <==> AllLegal(x, v) && AllLegal(y, v)
    ensures |y| == 1 ==> (AllLegal(y, v) <==> Legal(y[0], v))
  {}

  lemma ListedStmtsLegal(grant: bool, grantee: string, db: string, opt: GrantOption, v: Server)
    ensures AllLegal(ListedStmts(grant, grantee, db, opt), v)
            <==> NoObjects(opt) || (grantee in v.roles && ListedTaken(db, opt, v))
  {
    var t := NamedStmts(grant, grantee, db, opt, Table, opt.tables);
    var q := NamedStmts(grant, grantee, db, opt, Sequence, opt.sequences);
    var r := NamedStmts(grant, grantee, db, opt, Routine, opt.functions);
    NamedStmtsLegal(grant, grantee, db, opt, Table, opt.tables, v);
    NamedStmtsLegal(grant, grantee, db, opt, Sequence, opt.sequences, v);
    NamedStmtsLegal(grant, grantee, db, opt, Routine, opt.functions, v);
    LegalConcat(t, q, v);
    LegalConcat(t + q, r, v);
  }

  method BuildListed(stmts0: seq<Stmt>, grant: bool, grantee: string, db: string, opt: GrantOption)
    returns (ok: bool, stmts: seq<Stmt>)
    ensures ok == (NoObjects(opt) || ValidPrivileges(opt.privileges, PgDialect))
    ensures ok ==> stmts == stmts0 + ListedStmts(grant, grantee, db, opt)
  {
    ghost var t := NamedStmts(grant, grantee, db, opt, Table, opt.tables);
    ghost var q := NamedStmts(grant, grantee, db, opt, Sequence, opt.sequences);
    ghost var r := NamedStmts(grant, grantee, db, opt, Routine, opt.functions);
    Regroup(stmts0, t, q, r);
    ok, stmts := AppendNamed(stmts0, grant, grantee, db, opt, Table, opt.tables);
    if !ok {
      return;
    }
    ok, stmts := AppendNamed(stmts, grant, grantee, db, opt, Sequence, opt.sequences);
    if !ok {
      return;
    }
    ok, stmts := AppendNamed(stmts, grant, grantee, db, opt, Routine, opt.functions);
  }

  lemma Regroup(x: seq<Stmt>, t: seq<Stmt>, q: seq<Stmt>, r: seq<Stmt>)
    ensures x + t + q + r == x + (t + q + r)
  {}

  method SearchTablePrivilege(privileges: seq<string>) returns (found: bool)
    ensures found == HasTablePrivilege(privileges)
  {
    for i := 0 to |privileges|
      invariant forall j :: 0 <= j < i ==> !Listed(ToUpper(privileges[j]), TableWords())
    {
      if Listed(ToUpper(privileges[i]), TableWords()) {
        return true;
      }
    }
    return false;
  }

  function SchemaScoped(grantee: string, db: string, opt: GrantOption): seq<Stmt> {
    (if HasTablePrivilege(opt.privileges)
     then [GrantOn(ToAllTables(db, opt.schema), Words(opt.privileges), grantee, opt.withGrantOption)] else [])
    + [GrantOn(ToSchema(db, opt.schema), {"USAGE"}, grantee, false)]
  }

  lemma UsageHoldings(grantee: string, db: string, opt: GrantOption, objects: map<Obj, string>)
    requires SchemaOnly(opt)
    ensures Holdings(ToSchema(db, opt.schema), {"USAGE"}, grantee, objects) == Usage(grantee, db, opt)
  {
    var on := OnSchema(db, opt.schema);
    assert Atom(SortOf(on), "USAGE") == {"USAGE"} && "USAGE" in {"USAGE"};
    assert forall a :: a in Atoms(on, {"USAGE"}) <==> a in Atom(SortOf(on), "USAGE");
    assert Atoms(on, {"USAGE"}) == {"USAGE"};
  }

  lemma SchemaScopedHoldings(grantee: string, db: string, opt: GrantOption, objects: map<Obj, string>)
    requires SchemaOnly(opt)
    ensures var stmts := SchemaScoped(grantee, db, opt);
            && Uniform(stmts, true, grantee) && AllHoldings(stmts, objects) == Granted(grantee, db, opt, objects)
            && OptionHoldings(stmts, objects) == Regranted(grantee, db, opt, objects)
  {
    UsageHoldings(grantee, db, opt, objects);
    var all := GrantOn(ToAllTables(db, opt.schema), Words(opt.privileges), grantee, opt.withGrantOption);
    var use := GrantOn(ToSchema(db, opt.schema), {"USAGE"}, grantee, false);
    HoldingsOfOne(use, objects);
    if HasTablePrivilege(opt.privileges) {
      HoldingsOfOne(all, objects);
      HoldingsConcat([all], [use], objects);
    } else {
      assert SchemaScoped(grantee, db, opt) == [use];
    }
  }

  /** Statements for schema-level, all-tables and listed targets; nothing is sent if one cannot be built. */
  method BuildObjectGrants(grantee: string, db: string, opt: GrantOption) returns (ok: bool, stmts: seq<Stmt>)
    ensures ok ==> stmts == ObjectGrants(grantee, db, opt)
    ensures ok == GrantBuilds(opt)
  {
    stmts := [];
    if opt.schema != "" && |opt.tables| == 0 && |opt.sequences| == 0 && |opt.functions| == 0 {
      var tables := SearchTablePrivilege(opt.privileges);
      if tables {
        if !ValidPrivileges(opt.privileges, PgDialect) {
          return false, [];
        }
        stmts := stmts + [GrantOn(ToAllTables(db, opt.schema), Words(opt.privileges), grantee, opt.withGrantOption)];
      }
      stmts := stmts + [GrantOn(ToSchema(db, opt.schema), {"USAGE"}, grantee, false)];
    }
    ok, stmts := BuildListed(stmts, true, grantee, db, opt);
  }

  lemma ObjectGrantsHoldings(grantee: string, db: string, opt: GrantOption, objects: map<Obj, string>)
    requires !DatabaseLevel(opt)
    ensures var stmts := ObjectGrants(grantee, db, opt);
            && Uniform(stmts, true, grantee) && AllHoldings(stmts, objects) == Granted(grantee, db, opt, objects)
            && OptionHoldings(stmts, objects) == Regranted(grantee, db, opt, objects)
  {
    ListedStmtsHoldings(true, grantee, db, opt, objects);
    if SchemaOnly(opt) {
      assert ListedStmts(true, grantee, db, opt) == [];
      SchemaScopedHoldings(grantee, db, opt, objects);
      assert SchemaScoped(grantee, db, opt) + [] == SchemaScoped(grantee, db, opt);
    } else {
      assert [] + ListedStmts(true, grantee, db, opt) == ListedStmts(true, grantee, db, opt);
    }
  }

  function ObjectGrants(grantee: string, db: string, opt: GrantOption): seq<Stmt> {
    (if SchemaOnly(opt) then SchemaScoped(grantee, db, opt) else []) + ListedStmts(true, grantee, db, opt)
  }

  lemma SchemaGrantsLegal(grantee: string, db: string, opt: GrantOption, v: Server)
    ensures Legal(GrantOn(ToSchema(db, opt.schema), {"USAGE"}, grantee, false), v)
            <==> grantee in v.roles && UsageTaken(db, opt, v)
    ensures Legal(GrantOn(ToAllTables(db, opt.schema), Words(opt.privileges), grantee, opt.withGrantOption), v)
            <==> grantee in v.roles && TablesTaken(db, opt, v)
  {}

  lemma SchemaScopedLegal(grantee: string, db: string, opt: GrantOption, v: Server)
    ensures AllLegal(SchemaScoped(grantee, db, opt), v)
            <==> && grantee in v.roles && UsageTaken(db, opt, v)
                 && (HasTablePrivilege(opt.privileges) ==> TablesTaken(db, opt, v))
  {
    var all := GrantOn(ToAllTables(db, opt.schema), Words(opt.privileges), grantee, opt.withGrantOption);
    var use := GrantOn(ToSchema(db, opt.schema), {"USAGE"}, grantee, false);
    SchemaGrantsLegal(grantee, db, opt, v);
    LegalConcat([], [use], v);
    if HasTablePrivilege(opt.privileges) {
      LegalConcat([all], [use], v);
      LegalConcat([], [all], v);
    }
  }

  lemma ObjectGrantsLegal(grantee: string, db: string, opt: GrantOption, v: Server)
    requires !DatabaseLevel(opt)
    ensures AllLegal(ObjectGrants(grantee, db, opt), v) <==>
            Empty(opt) || (
              && grantee in v.roles && (SchemaOnly(opt) ==> UsageTaken(db, opt, v))
              && (SchemaOnly(opt) && HasTablePrivilege(opt.privileges) ==> TablesTaken(db, opt, v))
              && ListedTaken(db, opt, v))
  {
    var listed := ListedStmts(true, grantee, db, opt);
    ListedStmtsLegal(true, grantee, db, opt, v);
    if SchemaOnly(opt) {
      assert listed == [];
      LegalConcat(SchemaScoped(grantee, db, opt), listed, v);
      SchemaScopedLegal(grantee, db, opt, v);
    } else {
      assert ObjectGrants(grantee, db, opt) == listed;
    }
  }

  // ----- Grant and revoke of one option ---------------------------------------------------------------------------

  /** What granting one option leaves behind, and when it succeeds. */
  ghost predicate OptionGranted(grantee: string, db: string, opt: GrantOption, v: Server, w: Server, ok: bool,
                                clean: bool) {
    && GrantOutcome(v, w, Granted(grantee, db, opt, v.objects), Regranted(grantee, db, opt, v.objects), ok)
    && (ok || clean ==> ok == GrantAccepted(grantee, db, opt, v))
  }

  /** What revoking one option leaves behind, and when it succeeds. */
  ghost predicate OptionRevoked(grantee: string, db: string, opt: GrantOption, v: Server, w: Server, ok: bool,
                                clean: bool) {
    && RevokeOutcome(v, w, Revoked(grantee, db, opt, v.objects), ok)
    && (ok || clean ==> ok == RevokeAccepted(grantee, db, opt, v))
    && (RefusedOutright(grantee, db, opt, v) ==> w == v)
  }

  /** From `v` to `w` only privileges of the grantee in the database have changed. */
  ghost predicate OnlyWithin(v: Server, w: Server, grantee: string, db: string) {
    && w == v.(held := w.held, regrant := w.regrant)
    && (forall h :: (h in w.held) != (h in v.held) ==> h.grantee == grantee && DbOfSecurable(h.on) == db)
    && (forall h :: (h in w.regrant) != (h in v.regrant) ==> h.grantee == grantee && DbOfSecurable(h.on) == db)
  }

  lemma OutcomesWithin(grantee: string, db: string, opt: GrantOption, v: Server)
    ensures forall w, ok, clean :: OptionGranted(grantee, db, opt, v, w, ok, clean) ==> OnlyWithin(v, w, grantee, db)
    ensures forall w, ok, clean :: OptionRevoked(grantee, db, opt, v, w, ok, clean) ==> OnlyWithin(v, w, grantee, db)
  {
    FootprintsConfined(grantee, db, opt, v.objects);
    RevokeCoversGrant(grantee, db, opt, v.objects);
  }

  lemma DatabaseGranted(grantee: string, db: string, opt: GrantOption, v: Server, fault: Fault)
    requires DatabaseLevel(opt) && ValidPrivileges(opt.privileges, PgDialect)
    ensures var s := GrantOn(ToDatabase(db), Words(opt.privileges), grantee, opt.withGrantOption);
            OptionGranted(grantee, db, opt, v, After(fault, s, v), fault == NoFault && Legal(s, v), fault == NoFault)
  {
    SentGrant(GrantOn(ToDatabase(db), Words(opt.privileges), grantee, opt.withGrantOption), fault, v);
  }

  /** The builder lets the option through. */
  predicate GrantBuilds(opt: GrantOption) {
    || ValidPrivileges(opt.privileges, PgDialect)
    || (NoObjects(opt) && (SchemaOnly(opt) ==> !HasTablePrivilege(opt.privileges)))
  }

  lemma GrantNotBuilt(grantee: string, db: string, opt: GrantOption, v: Server, clean: bool)
    requires !ValidPrivileges(opt.privileges, PgDialect) && (DatabaseLevel(opt) || !GrantBuilds(opt))
    ensures OptionGranted(grantee, db, opt, v, v, false, clean)
  {}

  lemma ObjectsGranted(grantee: string, db: string, opt: GrantOption, v: Server, w: Server, ok: bool, clean: bool)
    requires !DatabaseLevel(opt) && GrantBuilds(opt) && StmtsGranted(ObjectGrants(grantee, db, opt), v, w, ok, clean)
    ensures OptionGranted(grantee, db, opt, v, w, ok, clean)
  {
    ObjectGrantsHoldings(grantee, db, opt, v.objects);
    ObjectGrantsLegal(grantee, db, opt, v);
  }

  method GrantPrivileges(a: Adapter, grantee: string, opt: GrantOption) returns (ok: bool)
    modifies a
    ensures OptionGranted(grantee, DbOf(opt, a.database), opt, old(a.server), a.server, ok, old(a.faults) == [])
    ensures opt.db != "" ==> OnlyWithin(old(a.server), a.server, grantee, opt.db)
    ensures opt.db == "" ==> OnlyWithin(old(a.server), a.server, grantee, a.database)
    ensures old(a.faults) == [] ==> a.faults == []
  {
    OutcomesWithin(grantee, DbOf(opt, a.database), opt, a.server);
    ghost var v, clean := a.server, a.faults == [];
    var db := if opt.db == "" then a.database else opt.db;
    if DatabaseLevel(opt) {
      if !ValidPrivileges(opt.privileges, PgDialect) {
        GrantNotBuilt(grantee, db, opt, v, clean);
        return false;
      }
      DatabaseGranted(grantee, db, opt, v, NextFault(a.faults));
      ok := a.Exec(GrantOn(ToDatabase(db), Words(opt.privileges), grantee, opt.withGrantOption));
    } else {
      var stmts;
      ok, stmts := BuildObjectGrants(grantee, db, opt);
      if !ok {
        GrantNotBuilt(grantee, db, opt, v, clean);
        return;
      }
      ObjectGrantsHoldings(grantee, db, opt, v.objects);
      ok := ExecGrants(a, stmts, grantee);
      ObjectsGranted(grantee, db, opt, v, a.server, ok, clean);
    }
  }

  function RevokeStmts(grantee: string, db: string, opt: GrantOption): seq<Stmt> {
    (if SchemaWide(opt) then [RevokeOn(ToAllTables(db, opt.schema), Words(opt.privileges), grantee)] else [])
    + ListedStmts(false, grantee, db, opt)
  }

  lemma RevokeStmtsHoldings(grantee: string, db: string, opt: GrantOption, objects: map<Obj, string>)
    requires !DatabaseLevel(opt)
    ensures Uniform(RevokeStmts(grantee, db, opt), false, grantee)
    ensures AllHoldings(RevokeStmts(grantee, db, opt), objects) == Revoked(grantee, db, opt, objects)
  {
    var first := if SchemaWide(opt) then [RevokeOn(ToAllTables(db, opt.schema), Words(opt.privileges), grantee)]
                 else [];
    ListedStmtsHoldings(false, grantee, db, opt, objects);
    HoldingsConcat(first, ListedStmts(false, grantee, db, opt), objects);
    if opt.schema != "" && opt.tables == [] {
      HoldingsOfOne(first[0], objects);
    } else {
      assert AllHoldings(first, objects) == {};
    }
  }

  lemma RevokeStmtsLegal(grantee: string, db: string, opt: GrantOption, v: Server)
    requires !DatabaseLevel(opt) && ValidPrivileges(opt.privileges, PgDialect)
    ensures AllLegal(RevokeStmts(grantee, db, opt), v) <==> RevokeAccepted(grantee, db, opt, v)
    ensures RevokeStmts(grantee, db, opt) != []
    ensures RefusedOutright(grantee, db, opt, v) ==> !Legal(RevokeStmts(grantee, db, opt)[0], v)
  {
    if SchemaWide(opt) {
      SchemaWideLegal(grantee, db, opt, v);
    } else {
      NarrowLegal(grantee, db, opt, v);
    }
  }

  lemma NarrowStmts(grantee: string, db: string, opt: GrantOption)
    requires !SchemaWide(opt)
    ensures RevokeStmts(grantee, db, opt) == ListedStmts(false, grantee, db, opt)
  {}

  lemma NarrowLegal(grantee: string, db: string, opt: GrantOption, v: Server)
    requires !SchemaWide(opt) && !NoObjects(opt)
    ensures RevokeStmts(grantee, db, opt) != []
    ensures AllLegal(RevokeStmts(grantee, db, opt), v) <==> grantee in v.roles && ListedTaken(db, opt, v)
    ensures grantee !in v.roles ==> !Legal(RevokeStmts(grantee, db, opt)[0], v)
  {
    NarrowStmts(grantee, db, opt);
    ListedStmtsLegal(false, grantee, db, opt, v);
    ListedNonEmpty(grantee, db, opt);
  }

  lemma SchemaWideLegal(grantee: string, db: string, opt: GrantOption, v: Server)
    requires SchemaWide(opt)
    ensures RevokeStmts(grantee, db, opt) != []
    ensures Legal(RevokeStmts(grantee, db, opt)[0], v) <==> grantee in v.roles && TablesTaken(db, opt, v)
    ensures AllLegal(RevokeStmts(grantee, db, opt), v)
            <==> grantee in v.roles && TablesTaken(db, opt, v) && ListedTaken(db, opt, v)
  {
    var first := RevokeOn(ToAllTables(db, opt.schema), Words(opt.privileges), grantee);
    var listed := ListedStmts(false, grantee, db, opt);
    assert RevokeStmts(grantee, db, opt) == [first] + listed;
    AllTablesLegal(grantee, db, opt, v);
    ListedStmtsLegal(false, grantee, db, opt, v);
    LegalConcat([first], listed, v);
    LegalConcat([], [first], v);
  }

  lemma AllTablesLegal(grantee: string, db: string, opt: GrantOption, v: Server)
    ensures Legal(RevokeOn(ToAllTables(db, opt.schema), Words(opt.privileges), grantee), v)
            <==> grantee in v.roles && TablesTaken(db, opt, v)
  {}

  /** Each listed name has its statement, all for the grantee. */
  lemma ListedNonEmpty(grantee: string, db: string, opt: GrantOption)
    requires !NoObjects(opt)
    ensures ListedStmts(false, grantee, db, opt) != []
    ensures ListedStmts(false, grantee, db, opt)[0].RevokeOn?
    ensures ListedStmts(false, grantee, db, opt)[0].grantee == grantee
  {
    ListedStmtsHoldings(false, grantee, db, opt, map[]);
    var stmts := ListedStmts(false, grantee, db, opt);
    assert stmts[0] in stmts;
  }

  lemma RefusedByBuilder(grantee: string, db: string, opt: GrantOption, v: Server, clean: bool)
    requires !Empty(opt) && !ValidPrivileges(opt.privileges, PgDialect)
    ensures OptionRevoked(grantee, db, opt, v, v, false, clean)
  {}

  lemma DatabaseRevoked(grantee: string, db: string, opt: GrantOption, v: Server, fault: Fault)
    requires DatabaseLevel(opt) && ValidPrivileges(opt.privileges, PgDialect)
    ensures var s := RevokeOn(ToDatabase(db), Words(opt.privileges), grantee);
            OptionRevoked(grantee, db, opt, v, After(fault, s, v), fault == NoFault && Legal(s, v), fault == NoFault)
  {
    SentRevoke(RevokeOn(ToDatabase(db), Words(opt.privileges), grantee), fault, v);
  }

  lemma ObjectsRevoked(grantee: string, db: string, opt: GrantOption, v: Server, w: Server, ok: bool, clean: bool)
    requires !DatabaseLevel(opt) && (Empty(opt) || ValidPrivileges(opt.privileges, PgDialect))
    requires StmtsRevoked(RevokeStmts(grantee, db, opt), v, w, ok, clean)
    ensures OptionRevoked(grantee, db, opt, v, w, ok, clean)
  {
    RevokeStmtsHoldings(grantee, db, opt, v.objects);
    if Empty(opt) {
      assert RevokeStmts(grantee, db, opt) == [];
    } else {
      RevokeStmtsLegal(grantee, db, opt, v);
    }
  }

  /** Everything but the database-level case. */
  method RevokeObjects(a: Adapter, grantee: string, db: string, opt: GrantOption) returns (ok: bool)
    requires !DatabaseLevel(opt)
    modifies a
    ensures OptionRevoked(grantee, db, opt, old(a.server), a.server, ok, old(a.faults) == [])
    ensures old(a.faults) == [] ==> a.faults == []
  {
    ghost var v, clean := a.server, a.faults == [];
    var stmts := [];
    if opt.schema != "" && |opt.tables| == 0 {
      if !ValidPrivileges(opt.privileges, PgDialect) {
        RefusedByBuilder(grantee, db, opt, v, clean);
        return false;
      }
      stmts := stmts + [RevokeOn(ToAllTables(db, opt.schema), Words(opt.privileges), grantee)];
    }
    ok, stmts := BuildListed(stmts, false, grantee, db, opt);
    if !ok {
      RefusedByBuilder(grantee, db, opt, v, clean);
      return;
    }
    assert stmts == RevokeStmts(grantee, db, opt);
    RevokeStmtsHoldings(grantee, db, opt, v.objects);
    ok := ExecRevokes(a, stmts, grantee);
    ObjectsRevoked(grantee, db, opt, v, a.server, ok, clean);
  }

  method RevokePrivileges(a: Adapter, grantee: string, opt: GrantOption) returns (ok: bool)
    modifies a
    ensures OptionRevoked(grantee, DbOf(opt, a.database), opt, old(a.server), a.server, ok, old(a.faults) == [])
    ensures opt.db != "" ==> OnlyWithin(old(a.server), a.server, grantee, opt.db)
    ensures opt.db == "" ==> OnlyWithin(old(a.server), a.server, grantee, a.database)
    ensures old(a.faults) == [] ==> a.faults == []
  {
    OutcomesWithin(grantee, DbOf(opt, a.database), opt, a.server);
    var db := if opt.db == "" then a.database else opt.db;
    if opt.schema == "" && |opt.tables| == 0 && |opt.sequences| == 0 && |opt.functions| == 0 && |opt.privileges| > 0 {
      if !ValidPrivileges(opt.privileges, PgDialect) {
        RefusedByBuilder(grantee, db, opt, a.server, a.faults == []);
        return false;
      }
      DatabaseRevoked(grantee, db, opt, a.server, NextFault(a.faults));
      ok := a.Exec(RevokeOn(ToDatabase(db), Words(opt.privileges), grantee));
      return;
    }
    ok := RevokeObjects(a, grantee, db, opt);
  }

  // ----- Overreach -----------------------------------------------------------------------------------------------

  /**
   The guard, in terms of the option and the state before the grant: granting leaves the tables of the
   schema alone, revoking does not and is accepted, and the grantee holds something there.
   */
  predicate Overreaches(grantee: string, db: string, opt: GrantOption, v: Server) {
    && Uneven(opt) && ValidPrivileges(opt.privileges, PgDialect) && TablesTaken(db, opt, v)
    && exists h :: h in v.held && h in OnSchemaTables(grantee, db, opt, v.objects)
  }

  /** `h` was held before the grant, is no part of it, and is gone after the revoke. */
  predicate TakenWithoutGrant(grantee: string, db: string, opt: GrantOption, v: Server, x: Server, h: Holding) {
    h in v.held && h !in Granted(grantee, db, opt, v.objects) && h !in x.held
  }

  /** Granting an option and revoking it takes something that was not granted exactly under the guard. */
  lemma RevokeOverreachesExactly(grantee: string, db: string, opt: GrantOption, v: Server, w: Server, x: Server,
                                 revoked: bool)
    requires OptionGranted(grantee, db, opt, v, w, true, true) && OptionRevoked(grantee, db, opt, w, x, revoked, true)
    ensures (exists h :: TakenWithoutGrant(grantee, db, opt, v, x, h)) <==> Overreaches(grantee, db, opt, v)
  {
    AcceptanceSame(grantee, db, opt, v, w);
    RevocableExactly(grantee, db, opt, v);
    if Overreaches(grantee, db, opt, v) {
      var h :| h in v.held && h in OnSchemaTables(grantee, db, opt, v.objects);
      UnevenFootprint(grantee, db, opt, v.objects, h);
      assert TakenWithoutGrant(grantee, db, opt, v, x, h);
    }
    if h :| TakenWithoutGrant(grantee, db, opt, v, x, h) {
      assert h in Revoked(grantee, db, opt, v.objects);
      if Uneven(opt) {
        UnevenFootprint(grantee, db, opt, v.objects, h);
      } else {
        EvenFootprint(grantee, db, opt, v.objects);
      }
    }
  }

  lemma AllPrivilegesUnrecognised()
    ensures !HasTablePrivilege(["ALL PRIVILEGES"]) && ValidPrivileges(["ALL PRIVILEGES"], PgDialect)
    ensures Words(["ALL PRIVILEGES"]) == {"ALL PRIVILEGES"}
  {
    var p := "ALL PRIVILEGES";
    assert TrimLeft(p) == p && TrimRight(p) == p && ToUpper(p) == p;
    NotATableWord(p);
    ListedAt(Allowlist(PgDialect), 14);
    assert Normalize(p) == p && Allowed(p, PgDialect);
    assert [p][0] == p;
  }

  lemma PaddedUnrecognised()
    ensures !HasTablePrivilege(["SELECT "]) && ValidPrivileges(["SELECT "], PgDialect)
    ensures Words(["SELECT "]) == {"SELECT"}
  {
    var q := "SELECT ";
    assert TrimLeft(q) == q && q[..6] == "SELECT" && ToUpper(q) == q && ToUpper("SELECT") == "SELECT";
    assert TrimRight(q) == TrimRight(q[..6]) == "SELECT";
    NotATableWord(q);
    ListedAt(Allowlist(PgDialect), 0);
    assert Normalize(q) == "SELECT" && Allowed(q, PgDialect);
    assert [q][0] == q;
  }

  lemma NotATableWord(p: string)
    requires p == "ALL PRIVILEGES" || p == "SELECT " || p == "SELCT" || p == "CONNECT"
    ensures !Listed(p, TableWords())
  {
    if Listed(p, TableWords()) {
      ListedIn(p, TableWords(), 0);
      assert false;
    }
  }

  lemma AtomHeld(on: Securable, words: set<string>, word: string, a: string)
    requires word in words && a in Atom(SortOf(on), word)
    ensures a in Atoms(on, words)
  {}

  lemma SelectIsTaken(app: string, opt: GrantOption, word: string, t: Obj, objects: map<Obj, string>)
    requires opt.schema == t.schema && t in objects && t.kind == Table && word in Words(opt.privileges)
    requires word == "ALL PRIVILEGES" || word == "SELECT"
    ensures Holding(app, OnObject(t), "SELECT") in OnSchemaTables(app, t.db, opt, objects)
  {
    assert "SELECT" in Atom(TableSort, word);
    AtomHeld(OnObject(t), Words(opt.privileges), word, "SELECT");
    assert OnObject(t) in Named(ToAllTables(t.db, opt.schema), objects);
  }

  lemma PgSorts()
    ensures (DatabaseSort, "CONNECT") !in PgRefused() && (SchemaSort, "USAGE") !in PgRefused()
    ensures (TableSort, "SELECT") !in PgRefused() && (TableSort, "ALL PRIVILEGES") !in PgRefused()
    ensures (SequenceSort, "SELECT") !in PgRefused() && (RoutineSort, "EXECUTE") !in PgRefused()
  {}

  /** The privileges of these witnesses against what PostgreSQL has for each sort. */
  lemma PgTakes(v: Server)
    requires v.refused == PgRefused()
    ensures Takes(v, DatabaseSort, {"CONNECT"}) && Takes(v, SchemaSort, {"USAGE"})
    ensures Takes(v, TableSort, {"SELECT"}) && Takes(v, TableSort, {"ALL PRIVILEGES"})
    ensures Takes(v, SequenceSort, {"SELECT"}) && Takes(v, RoutineSort, {"EXECUTE"})
  {
    PgSorts();
  }

  lemma OneNameTaken(db: string, schema: string, kind: Kind, name: string, words: set<string>, v: Server)
    requires schema != "" && Obj(db, schema, kind, name) in v.objects && Takes(v, SortOfKind(kind), words)
    ensures NamesTaken(db, schema, kind, [name], words, v)
  {}

  /** A valid option that lists one sequence or one function is granted where that exists. */
  lemma OneListedAccepted(app: string, db: string, opt: GrantOption, v: Server)
    requires app in v.roles && ValidPrivileges(opt.privileges, PgDialect) && opt.tables == []
    requires (opt.sequences == [] && |opt.functions| == 1) || (opt.functions == [] && |opt.sequences| == 1)
    requires NamesTaken(db, opt.schema, Sequence, opt.sequences, Words(opt.privileges), v)
    requires NamesTaken(db, opt.schema, Routine, opt.functions, Words(opt.privileges), v)
    ensures GrantAccepted(app, db, opt, v)
  {}

  lemma PgTablesRefuseExecute()
    ensures (TableSort, "EXECUTE") in PgRefused()
  {
    assert PgPrivileges()[11] == "EXECUTE";
    assert "EXECUTE" in Atom(TableSort, "EXECUTE") && "EXECUTE" !in AllOn(TableSort);
  }

  /** The grantee holds SELECT on a table of a PostgreSQL server. */
  predicate HoldsSelect(app: string, t: Obj, v: Server) {
    && t in v.objects && t.kind == Table && t.schema != "" && (t.db, t.schema) in v.schemas && app in v.roles
    && Holding(app, OnObject(t), "SELECT") in v.held && v.refused == PgRefused()
  }

  lemma SchemaOptionOverreaches(app: string, t: Obj, word: string, norm: string, v: Server)
    requires HoldsSelect(app, t, v) && Words([word]) == {norm} && !HasTablePrivilege([word])
    requires ValidPrivileges([word], PgDialect) && (norm == "ALL PRIVILEGES" || norm == "SELECT")
    ensures var opt := GrantOption(t.db, t.schema, [], [], [], [word], false);
            GrantAccepted(app, t.db, opt, v) && Overreaches(app, t.db, opt, v)
  {
    PgTakes(v);
    SelectIsTaken(app, GrantOption(t.db, t.schema, [], [], [], [word], false), norm, t, v.objects);
  }

  /**
   It does happen: ALL PRIVILEGES, or a keyword with a blank behind it, passes the allowlist without
   being recognised as a table privilege. Granted and revoked on a schema, it takes the SELECT that the
   grantee held on a table there all along.
   */
  lemma OverreachWitness(app: string, t: Obj, word: string, v: Server)
    requires HoldsSelect(app, t, v) && (word == "ALL PRIVILEGES" || word == "SELECT ")
    ensures var opt := GrantOption(t.db, t.schema, [], [], [], [word], false);
            GrantAccepted(app, t.db, opt, v) && Overreaches(app, t.db, opt, v)
  {
    if word == "SELECT " {
      PaddedUnrecognised();
      SchemaOptionOverreaches(app, t, word, "SELECT", v);
    } else {
      AllPrivilegesUnrecognised();
      SchemaOptionOverreaches(app, t, word, word, v);
    }
  }

  lemma SelectWord()
    ensures ValidPrivileges(["SELECT"], PgDialect) && Words(["SELECT"]) == {"SELECT"}
  {
    var w := "SELECT";
    NormalizeUpper(w);
    ListedAt(Allowlist(PgDialect), 0);
    assert Allowed(w, PgDialect) && [w][0] == w;
  }

  /** Nor need the keyword be odd: SELECT on a sequence of the schema does the same. */
  lemma SequenceOverreach(app: string, t: Obj, q: string, v: Server)
    requires HoldsSelect(app, t, v) && Obj(t.db, t.schema, Sequence, q) in v.objects
    ensures var opt := GrantOption(t.db, t.schema, [], [q], [], ["SELECT"], false);
            GrantAccepted(app, t.db, opt, v) && Overreaches(app, t.db, opt, v)
  {
    var opt := GrantOption(t.db, t.schema, [], [q], [], ["SELECT"], false);
    PgTakes(v);
    SelectWord();
    OneNameTaken(t.db, t.schema, Sequence, q, {"SELECT"}, v);
    OneListedAccepted(app, t.db, opt, v);
    SelectIsTaken(app, opt, "SELECT", t, v.objects);
  }

  // ----- Lists of options ---------------------------------------------------------------------------------------

  function GrantedAll(grantee: string, configured: string, opts: seq<GrantOption>,
                      objects: map<Obj, string>): set<Holding> {
    set o, h | o in opts && h in Granted(grantee, DbOf(o, configured), o, objects) :: h
  }

  function RegrantedAll(grantee: string, configured: string, opts: seq<GrantOption>,
                        objects: map<Obj, string>): set<Holding> {
    set o, h | o in opts && h in Regranted(grantee, DbOf(o, configured), o, objects) :: h
  }

  function RevokedAll(grantee: string, configured: string, opts: seq<GrantOption>,
                      objects: map<Obj, string>): set<Holding> {
    set o, h | o in opts && h in Revoked(grantee, DbOf(o, configured), o, objects) :: h
  }

  function UsageAll(grantee: string, configured: string, opts: seq<GrantOption>): set<Holding> {
    set o, h | o in opts && h in Usage(grantee, DbOf(o, configured), o) :: h
  }

  lemma GrantedAllStep(grantee: string, configured: string, opts: seq<GrantOption>, i: nat, objects: map<Obj, string>)
    requires i < |opts|
    ensures GrantedAll(grantee, configured, opts[..i + 1], objects)
         == GrantedAll(grantee, configured, opts[..i], objects)
            + Granted(grantee, DbOf(opts[i], configured), opts[i], objects)
    ensures GrantedAll(grantee, configured, opts[..i + 1], objects) <= GrantedAll(grantee, configured, opts, objects)
  {
    assert opts[..i + 1] == opts[..i] + [opts[i]];
  }

  lemma RegrantedAllStep(grantee: string, configured: string, opts: seq<GrantOption>, i: nat, objects: map<Obj, string>)
    requires i < |opts|
    ensures RegrantedAll(grantee, configured, opts[..i + 1], objects)
         == RegrantedAll(grantee, configured, opts[..i], objects)
            + Regranted(grantee, DbOf(opts[i], configured), opts[i], objects)
    ensures RegrantedAll(grantee, configured, opts[..i + 1], objects)
         <= RegrantedAll(grantee, configured, opts, objects)
  {
    assert opts[..i + 1] == opts[..i] + [opts[i]];
  }

  lemma RevokedAllStep(grantee: string, configured: string, opts: seq<GrantOption>, i: nat, objects: map<Obj, string>)
    requires i < |opts|
    ensures RevokedAll(grantee, configured, opts[..i + 1], objects)
         == RevokedAll(grantee, configured, opts[..i], objects)
            + Revoked(grantee, DbOf(opts[i], configured), opts[i], objects)
    ensures RevokedAll(grantee, configured, opts[..i + 1], objects) <= RevokedAll(grantee, configured, opts, objects)
  {
    assert opts[..i + 1] == opts[..i] + [opts[i]];
  }

  ghost predicate GrantAcceptedAll(grantee: string, configured: string, opts: seq<GrantOption>, v: Server) {
    forall o :: o in opts ==> GrantAccepted(grantee, DbOf(o, configured), o, v)
  }

  ghost predicate RevokeAcceptedAll(grantee: string, configured: string, opts: seq<GrantOption>, v: Server) {
    forall o :: o in opts ==> RevokeAccepted(grantee, DbOf(o, configured), o, v)
  }

  lemma AcceptedAllStep(grantee: string, configured: string, opts: seq<GrantOption>, i: nat, v: Server)
    requires i < |opts|
    ensures GrantAcceptedAll(grantee, configured, opts[..i + 1], v)
            <==> GrantAcceptedAll(grantee, configured, opts[..i], v)
                 && GrantAccepted(grantee, DbOf(opts[i], configured), opts[i], v)
    ensures GrantAcceptedAll(grantee, configured, opts, v) ==>
              GrantAccepted(grantee, DbOf(opts[i], configured), opts[i], v)
    ensures RevokeAcceptedAll(grantee, configured, opts[..i + 1], v)
            <==> RevokeAcceptedAll(grantee, configured, opts[..i], v)
                 && RevokeAccepted(grantee, DbOf(opts[i], configured), opts[i], v)
    ensures RevokeAcceptedAll(grantee, configured, opts, v) ==>
              RevokeAccepted(grantee, DbOf(opts[i], configured), opts[i], v)
  {
    assert opts[..i + 1] == opts[..i] + [opts[i]];
  }

  /** What granting a list leaves behind, and when it succeeds. */
  ghost predicate ListGranted(grantee: string, configured: string, opts: seq<GrantOption>, v: Server, w: Server,
                              ok: bool, clean: bool) {
    && GrantOutcome(v, w, GrantedAll(grantee, configured, opts, v.objects),
                    RegrantedAll(grantee, configured, opts, v.objects), ok)
    && (ok || clean ==> ok == GrantAcceptedAll(grantee, configured, opts, v))
  }

  /** An option refused outright shields itself and all behind it. */
  ghost predicate Shielded(grantee: string, configured: string, opts: seq<GrantOption>, v: Server, w: Server, k: nat) {
    k < |opts| && RefusedOutright(grantee, DbOf(opts[k], configured), opts[k], v)
    ==> RevokeOutcome(v, w, RevokedAll(grantee, configured, opts[..k], v.objects), false)
  }

  /** A leading part that is accepted is gone. */
  ghost predicate Cleared(grantee: string, configured: string, opts: seq<GrantOption>, v: Server, w: Server, k: nat) {
    k <= |opts| && RevokeAcceptedAll(grantee, configured, opts[..k], v)
    ==> var r := RevokedAll(grantee, configured, opts[..k], v.objects); w.held !! r && w.regrant !! r
  }

  /** What revoking a list leaves behind, and when it succeeds. */
  ghost predicate ListRevoked(grantee: string, configured: string, opts: seq<GrantOption>, v: Server, w: Server,
                              ok: bool, clean: bool) {
    && RevokeOutcome(v, w, RevokedAll(grantee, configured, opts, v.objects), ok)
    && (ok || clean ==> ok == RevokeAcceptedAll(grantee, configured, opts, v))
    && (forall k: nat :: Shielded(grantee, configured, opts, v, w, k))
    && (clean ==> forall k: nat :: Cleared(grantee, configured, opts, v, w, k))
  }

  method Grant(a: Adapter, grantee: string, opts: seq<GrantOption>) returns (ok: bool)
    modifies a
    ensures ListGranted(grantee, a.database, opts, old(a.server), a.server, ok, old(a.faults) == [])
    ensures old(a.faults) == [] ==> a.faults == []
  {
    ghost var v, c := a.server, a.database;
    var i := 0;
    while i < |opts|
      invariant 0 <= i <= |opts|
      invariant GrantOutcome(v, a.server, GrantedAll(grantee, c, opts[..i], v.objects),
                             RegrantedAll(grantee, c, opts[..i], v.objects), true)
      invariant GrantAcceptedAll(grantee, c, opts[..i], v)
      invariant old(a.faults) == [] ==> a.faults == []
    {
      ghost var u := a.server;
      AcceptanceSame(grantee, DbOf(opts[i], c), opts[i], v, u);
      AcceptedAllStep(grantee, c, opts, i, v);
      ok := GrantPrivileges(a, grantee, opts[i]);
      GrantedAllStep(grantee, c, opts, i, v.objects);
      RegrantedAllStep(grantee, c, opts, i, v.objects);
      GrantChain(v, u, a.server, GrantedAll(grantee, c, opts[..i], v.objects),
                 RegrantedAll(grantee, c, opts[..i], v.objects),
                 Granted(grantee, DbOf(opts[i], c), opts[i], v.objects),
                 Regranted(grantee, DbOf(opts[i], c), opts[i], v.objects),
                 GrantedAll(grantee, c, opts[..i + 1], v.objects), RegrantedAll(grantee, c, opts[..i + 1], v.objects),
                 GrantedAll(grantee, c, opts, v.objects), RegrantedAll(grantee, c, opts, v.objects), ok);
      if !ok {
        return;
      }
      i := i + 1;
    }
    assert opts[..i] == opts;
    ok := true;
  }

  lemma RevokedAllMonotone(grantee: string, configured: string, opts: seq<GrantOption>, i: nat, k: nat,
                           objects: map<Obj, string>)
    requires i <= k <= |opts|
    ensures RevokedAll(grantee, configured, opts[..i], objects) <= RevokedAll(grantee, configured, opts[..k], objects)
  {
    assert opts[..k] == opts[..i] + opts[i..k];
  }

  lemma AcceptedPrefix(grantee: string, configured: string, opts: seq<GrantOption>, i: nat, k: nat, v: Server)
    requires i < k <= |opts| && RevokeAcceptedAll(grantee, configured, opts[..k], v)
    ensures RevokeAccepted(grantee, DbOf(opts[i], configured), opts[i], v)
  {
    assert opts[..k][i] == opts[i];
  }

  /** The revoke of option `i` failed after those before it went through. */
  lemma RevokeStopped(grantee: string, c: string, opts: seq<GrantOption>, i: nat, v: Server, u: Server, w: Server,
                      clean: bool)
    requires i < |opts| && RevokeAcceptedAll(grantee, c, opts[..i], v)
    requires RevokeOutcome(v, u, RevokedAll(grantee, c, opts[..i], v.objects), true)
    requires OptionRevoked(grantee, DbOf(opts[i], c), opts[i], u, w, false, clean)
    ensures ListRevoked(grantee, c, opts, v, w, false, clean)
  {
    var o := opts[i];
    AcceptanceSame(grantee, DbOf(o, c), o, v, u);
    AcceptedAllStep(grantee, c, opts, i, v);
    RevokedAllStep(grantee, c, opts, i, v.objects);
    var r, r' := RevokedAll(grantee, c, opts[..i], v.objects), RevokedAll(grantee, c, opts[..i + 1], v.objects);
    RevokeChain(v, u, w, r, Revoked(grantee, DbOf(o, c), o, v.objects), r', RevokedAll(grantee, c, opts, v.objects),
                false);
    assert RevokeOutcome(v, w, r', false);
    forall k: nat ensures Shielded(grantee, c, opts, v, w, k) {
      if k < |opts| && RefusedOutright(grantee, DbOf(opts[k], c), opts[k], v) {
        if k < i {
          AcceptedPrefix(grantee, c, opts, k, i, v);
        } else if k > i {
          RevokedAllMonotone(grantee, c, opts, i + 1, k, v.objects);
        }
      }
    }
    if clean {
      forall k: nat ensures Cleared(grantee, c, opts, v, w, k) {
        if k <= |opts| && RevokeAcceptedAll(grantee, c, opts[..k], v) {
          if k > i {
            AcceptedPrefix(grantee, c, opts, i, k, v);
          } else {
            RevokedAllMonotone(grantee, c, opts, k, i, v.objects);
          }
        }
      }
    }
  }

  lemma RevokeCompleted(grantee: string, c: string, opts: seq<GrantOption>, v: Server, w: Server, clean: bool)
    requires RevokeAcceptedAll(grantee, c, opts, v)
    requires RevokeOutcome(v, w, RevokedAll(grantee, c, opts, v.objects), true)
    ensures ListRevoked(grantee, c, opts, v, w, true, clean)
  {
    assert opts[..|opts|] == opts;
    forall k: nat ensures Shielded(grantee, c, opts, v, w, k) {
      if k < |opts| {
        AcceptedPrefix(grantee, c, opts, k, |opts|, v);
      }
    }
    forall k: nat ensures Cleared(grantee, c, opts, v, w, k) {
      if k <= |opts| {
        RevokedAllMonotone(grantee, c, opts, k, |opts|, v.objects);
      }
    }
  }

  method Revoke(a: Adapter, grantee: string, opts: seq<GrantOption>) returns (ok: bool)
    modifies a
    ensures ListRevoked(grantee, a.database, opts, old(a.server), a.server, ok, old(a.faults) == [])
    ensures old(a.faults) == [] ==> a.faults == []
  {
    ghost var v, c := a.server, a.database;
    var i := 0;
    while i < |opts|
      invariant 0 <= i <= |opts|
      invariant RevokeOutcome(v, a.server, RevokedAll(grantee, c, opts[..i], v.objects), true)
      invariant RevokeAcceptedAll(grantee, c, opts[..i], v)
      invariant old(a.faults) == [] ==> a.faults == []
    {
      ghost var u, quiet := a.server, a.faults == [];
      ok := RevokePrivileges(a, grantee, opts[i]);
      if !ok {
        RevokeStopped(grantee, c, opts, i, v, u, a.server, quiet);
        return;
      }
      AcceptanceSame(grantee, DbOf(opts[i], c), opts[i], v, u);
      AcceptedAllStep(grantee, c, opts, i, v);
      RevokedAllStep(grantee, c, opts, i, v.objects);
      RevokeChain(v, u, a.server, RevokedAll(grantee, c, opts[..i], v.objects),
                  Revoked(grantee, DbOf(opts[i], c), opts[i], v.objects),
                  RevokedAll(grantee, c, opts[..i + 1], v.objects), RevokedAll(grantee, c, opts, v.objects), ok);
      i := i + 1;
    }
    assert opts[..i] == opts;
    RevokeCompleted(grantee, c, opts, v, a.server, old(a.faults) == []);
    ok := true;
  }

  lemma RevokeAllCoversGrantAll(grantee: string, configured: string, opts: seq<GrantOption>, objects: map<Obj, string>)
    ensures var g, r, u := GrantedAll(grantee, configured, opts, objects),
                           RevokedAll(grantee, configured, opts, objects), UsageAll(grantee, configured, opts);
            && g <= r + u && u <= g && r !! u
            && RegrantedAll(grantee, configured, opts, objects) <= r
  {
    var g, r, u := GrantedAll(grantee, configured, opts, objects), RevokedAll(grantee, configured, opts, objects),
                   UsageAll(grantee, configured, opts);
    forall h | h in g ensures h in r + u {
      var o :| o in opts && h in Granted(grantee, DbOf(o, configured), o, objects);
      RevokeCoversGrant(grantee, DbOf(o, configured), o, objects);
    }
    forall h | h in RegrantedAll(grantee, configured, opts, objects) ensures h in r {
      var o :| o in opts && h in Regranted(grantee, DbOf(o, configured), o, objects);
      RevokeCoversGrant(grantee, DbOf(o, configured), o, objects);
    }
    forall h | h in r ensures !h.on.OnSchema? {
      var o :| o in opts && h in Revoked(grantee, DbOf(o, configured), o, objects);
      RevokeCoversGrant(grantee, DbOf(o, configured), o, objects);
    }
    assert forall h :: h in u ==> h.on.OnSchema?;
    forall h | h in u ensures h in g {
      var o :| o in opts && h in Usage(grantee, DbOf(o, configured), o);
      assert h in Granted(grantee, DbOf(o, configured), o, objects);
    }
  }

  /** Adding `g` and taking `r` leaves `u`, where `g` is covered by `r` but for `u`. */
  lemma SetResidue(held: set<Holding>, g: set<Holding>, r: set<Holding>, u: set<Holding>)
    requires g <= r + u && u <= g && r !! u
    ensures held + g - r == held - r + u
  {}

  /** Position of the first option that cannot be revoked once granted, or the end. */
  function Stop(configured: string, opts: seq<GrantOption>, v: Server, i: nat := 0): (k: nat)
    requires i <= |opts|
    ensures i <= k <= |opts| && forall j :: i <= j < k ==> Revocable(DbOf(opts[j], configured), opts[j], v)
    ensures k < |opts| ==> !Revocable(DbOf(opts[k], configured), opts[k], v)
    decreases |opts| - i
  {
    if i < |opts| && Revocable(DbOf(opts[i], configured), opts[i], v) then Stop(configured, opts, v, i + 1) else i
  }

  lemma StopAccepted(grantee: string, configured: string, opts: seq<GrantOption>, v: Server)
    requires GrantAcceptedAll(grantee, configured, opts, v)
    ensures var k := Stop(configured, opts, v);
            && RevokeAcceptedAll(grantee, configured, opts[..k], v)
            && (k < |opts| ==> RefusedOutright(grantee, DbOf(opts[k], configured), opts[k], v))
            && (RevokeAcceptedAll(grantee, configured, opts, v) <==> k == |opts|)
  {
    var k := Stop(configured, opts, v);
    forall o | o in opts[..k] ensures RevokeAccepted(grantee, DbOf(o, configured), o, v) {
      var j :| 0 <= j < k && opts[j] == o;
      RevocableExactly(grantee, DbOf(o, configured), o, v);
    }
    if k < |opts| {
      assert opts[k] in opts;
      RevocableExactly(grantee, DbOf(opts[k], configured), opts[k], v);
    } else {
      assert opts[..k] == opts;
    }
  }

  lemma AcceptanceAllSame(grantee: string, configured: string, opts: seq<GrantOption>, v: Server, w: Server)
    requires SameCatalog(v, w)
    ensures GrantAcceptedAll(grantee, configured, opts, w) <==> GrantAcceptedAll(grantee, configured, opts, v)
    ensures RevokeAcceptedAll(grantee, configured, opts, w) <==> RevokeAcceptedAll(grantee, configured, opts, v)
  {
    forall o | o in opts
      ensures GrantAccepted(grantee, DbOf(o, configured), o, w) <==> GrantAccepted(grantee, DbOf(o, configured), o, v)
      ensures RevokeAccepted(grantee, DbOf(o, configured), o, w) <==> RevokeAccepted(grantee, DbOf(o, configured), o, v)
    {
      AcceptanceSame(grantee, DbOf(o, configured), o, v, w);
    }
  }

  lemma StopSame(configured: string, opts: seq<GrantOption>, v: Server, w: Server, i: nat)
    requires SameCatalog(v, w) && i <= |opts|
    ensures Stop(configured, opts, w, i) == Stop(configured, opts, v, i)
    decreases |opts| - i
  {}

  /** A revoke without faults takes away exactly what the options before the first refused one cover. */
  lemma RevokedUpToStop(grantee: string, configured: string, opts: seq<GrantOption>, v: Server, w: Server, ok: bool)
    requires GrantAcceptedAll(grantee, configured, opts, v) && ListRevoked(grantee, configured, opts, v, w, ok, true)
    ensures var r := RevokedAll(grantee, configured, opts[..Stop(configured, opts, v)], v.objects);
            w == v.(held := v.held - r, regrant := v.regrant - r)
    ensures ok <==> Stop(configured, opts, v) == |opts|
  {
    var k := Stop(configured, opts, v);
    StopAccepted(grantee, configured, opts, v);
    assert Shielded(grantee, configured, opts, v, w, k) && Cleared(grantee, configured, opts, v, w, k);
    assert k == |opts| ==> opts[..k] == opts;
  }

  /**
   Granting a list and revoking it again, without faults: the revoke completes exactly if every option
   is revocable. Otherwise it stops at the first that is not, and everything granted from there on
   stays; where it completes, what stays is schema USAGE.
   */
  lemma RevokeAfterGrant(grantee: string, configured: string, opts: seq<GrantOption>, v: Server, w: Server, x: Server,
                         revoked: bool)
    requires ListGranted(grantee, configured, opts, v, w, true, true)
    requires ListRevoked(grantee, configured, opts, w, x, revoked, true)
    ensures revoked <==> forall o :: o in opts ==> Revocable(DbOf(o, configured), o, v)
    ensures var r := RevokedAll(grantee, configured, opts[..Stop(configured, opts, v)], v.objects);
            && x == v.(held := v.held + GrantedAll(grantee, configured, opts, v.objects) - r,
                       regrant := v.regrant + RegrantedAll(grantee, configured, opts, v.objects) - r)
            && (revoked ==> x.held == v.held - r + UsageAll(grantee, configured, opts) && x.regrant == v.regrant - r)
  {
    var k := Stop(configured, opts, v);
    AcceptanceAllSame(grantee, configured, opts, v, w);
    StopSame(configured, opts, v, w, 0);
    RevokedUpToStop(grantee, configured, opts, w, x, revoked);
    if revoked {
      assert opts[..k] == opts;
      RevokeAllCoversGrantAll(grantee, configured, opts, v.objects);
      SetResidue(v.held, GrantedAll(grantee, configured, opts, v.objects),
                 RevokedAll(grantee, configured, opts, v.objects),
                 UsageAll(grantee, configured, opts));
      SetResidue(v.regrant, RegrantedAll(grantee, configured, opts, v.objects),
                 RevokedAll(grantee, configured, opts, v.objects), {});
    } else {
      assert opts[k] in opts;
    }
  }

  /** `h` was held before the list was granted, is no part of it, and is gone after the revoke. */
  predicate TakenBeside(grantee: string, c: string, opts: seq<GrantOption>, v: Server, x: Server, h: Holding) {
    h in v.held && h !in GrantedAll(grantee, c, opts, v.objects) && h !in x.held
  }

  /** Option `j` is uneven, and the grantee held `h` on a table of its schema beside what the list grants. */
  predicate Exposed(grantee: string, c: string, opts: seq<GrantOption>, v: Server, j: nat, h: Holding) {
    && j < |opts| && Uneven(opts[j]) && h in v.held && h !in GrantedAll(grantee, c, opts, v.objects)
    && h in OnSchemaTables(grantee, DbOf(opts[j], c), opts[j], v.objects)
  }

  /**
   The same for a list: granting and revoking it takes something that was not granted exactly if one of
   the options that are reached is uneven and meets a holding on its schema's tables.
   */
  lemma ListOverreachesExactly(grantee: string, c: string, opts: seq<GrantOption>, v: Server, w: Server, x: Server,
                               revoked: bool)
    requires ListGranted(grantee, c, opts, v, w, true, true) && ListRevoked(grantee, c, opts, w, x, revoked, true)
    ensures (exists h :: TakenBeside(grantee, c, opts, v, x, h))
            <==> exists j: nat, h :: j < Stop(c, opts, v) && Exposed(grantee, c, opts, v, j, h)
  {
    RevokeAfterGrant(grantee, c, opts, v, w, x, revoked);
    if h :| TakenBeside(grantee, c, opts, v, x, h) {
      var j := TakenIsExposed(grantee, c, opts, Stop(c, opts, v), v, h);
      assert j < Stop(c, opts, v) && Exposed(grantee, c, opts, v, j, h);
    }
    if j: nat, h :| j < Stop(c, opts, v) && Exposed(grantee, c, opts, v, j, h) {
      ExposedIsRevoked(grantee, c, opts, Stop(c, opts, v), v, j, h);
      assert TakenBeside(grantee, c, opts, v, x, h);
    }
  }

  lemma TakenIsExposed(grantee: string, c: string, opts: seq<GrantOption>, k: nat, v: Server, h: Holding)
    returns (j: nat)
    requires k <= |opts| && h in v.held && h !in GrantedAll(grantee, c, opts, v.objects)
    requires h in RevokedAll(grantee, c, opts[..k], v.objects)
    ensures j < k && Exposed(grantee, c, opts, v, j, h)
  {
    var o :| o in opts[..k] && h in Revoked(grantee, DbOf(o, c), o, v.objects);
    j :| 0 <= j < k && opts[j] == o;
    NotGrantedByOption(grantee, c, opts, j, v.objects, h);
    OptionTakes(grantee, DbOf(o, c), o, v.objects, h);
  }

  lemma ExposedIsRevoked(grantee: string, c: string, opts: seq<GrantOption>, k: nat, v: Server, j: nat, h: Holding)
    requires j < k <= |opts| && Exposed(grantee, c, opts, v, j, h)
    ensures h in RevokedAll(grantee, c, opts[..k], v.objects)
  {
    UnevenFootprint(grantee, DbOf(opts[j], c), opts[j], v.objects, h);
    assert opts[..k][j] == opts[j];
  }

  lemma NotGrantedByOption(grantee: string, c: string, opts: seq<GrantOption>, j: nat, objects: map<Obj, string>,
                           h: Holding)
    requires j < |opts| && h !in GrantedAll(grantee, c, opts, objects)
    ensures h !in Granted(grantee, DbOf(opts[j], c), opts[j], objects)
  {
    assert opts[j] in opts;
  }

  lemma OptionTakes(grantee: string, db: string, opt: GrantOption, objects: map<Obj, string>, h: Holding)
    requires h in Revoked(grantee, db, opt, objects) && h !in Granted(grantee, db, opt, objects)
    ensures Uneven(opt) && h in OnSchemaTables(grantee, db, opt, objects)
  {
    if Uneven(opt) {
      UnevenFootprint(grantee, db, opt, objects, h);
    } else {
      EvenFootprint(grantee, db, opt, objects);
    }
  }

  /** A misspelt privilege on a schema. */
  function MisspeltOption(db: string, schema: string): GrantOption {
    GrantOption(db, schema, [], [], [], ["SELCT"], false)
  }

  function ConnectOption(db: string): GrantOption {
    GrantOption(db, "", [], [], [], ["CONNECT"], false)
  }

  function Misspelt(db: string, schema: string): seq<GrantOption> {
    [MisspeltOption(db, schema), ConnectOption(db)]
  }

  lemma NotAllowed(w: string)
    requires w == "SELCT"
    ensures !Listed(w, Allowlist(PgDialect))
  {
    if Listed(w, Allowlist(PgDialect)) {
      ListedIn(w, Allowlist(PgDialect), 0);
      assert false;
    }
  }

  lemma MisspeltWord()
    ensures !HasTablePrivilege(["SELCT"]) && !ValidPrivileges(["SELCT"], PgDialect)
  {
    var w := "SELCT";
    NormalizeUpper(w);
    assert ToUpper(w) == w;
    NotATableWord(w);
    NotAllowed(w);
    assert [w][0] == w && !Allowed(w, PgDialect);
  }

  lemma ConnectWord()
    ensures ValidPrivileges(["CONNECT"], PgDialect) && Words(["CONNECT"]) == {"CONNECT"}
  {
    var w := "CONNECT";
    NormalizeUpper(w);
    ListedAt(Allowlist(PgDialect), 8);
    assert Allowed(w, PgDialect) && [w][0] == w;
  }

  lemma MisspeltAccepted(app: string, db: string, schema: string, v: Server)
    requires app in v.roles && (db, schema) in v.schemas && schema != "" && v.refused == PgRefused()
    ensures GrantAccepted(app, db, MisspeltOption(db, schema), v)
  {
    PgTakes(v);
    MisspeltWord();
    SchemaOnlyAccepted(app, db, MisspeltOption(db, schema), v);
  }

  /** Without a table keyword, a schema-only option is granted for its USAGE alone. */
  lemma SchemaOnlyAccepted(app: string, db: string, opt: GrantOption, v: Server)
    requires app in v.roles && SchemaOnly(opt) && !HasTablePrivilege(opt.privileges) && UsageTaken(db, opt, v)
    ensures GrantAccepted(app, db, opt, v)
  {}

  lemma ConnectAccepted(app: string, db: string, v: Server)
    requires app in v.roles && db in v.databases && v.refused == PgRefused()
    ensures GrantAccepted(app, db, ConnectOption(db), v)
  {
    PgTakes(v);
    ConnectWord();
  }

  /** Any PostgreSQL server that has the names takes the list. */
  lemma MisspeltGranted(app: string, db: string, schema: string, v: Server)
    requires app in v.roles && db in v.databases && (db, schema) in v.schemas && db != "" && schema != ""
    requires v.refused == PgRefused()
    ensures GrantAcceptedAll(app, "", Misspelt(db, schema), v)
  {
    MisspeltAccepted(app, db, schema, v);
    ConnectAccepted(app, db, v);
  }

  lemma ConnectIsGranted(app: string, db: string, objects: map<Obj, string>)
    ensures Holding(app, OnDatabase(db), "CONNECT") in Granted(app, db, ConnectOption(db), objects)
  {
    ConnectWord();
    assert "CONNECT" in Atom(DatabaseSort, "CONNECT");
    AtomHeld(OnDatabase(db), Words(["CONNECT"]), "CONNECT", "CONNECT");
  }

  /** If the first option is refused outright, revoking the list never does anything, whatever else fails. */
  lemma RefusedFirst(grantee: string, c: string, opts: seq<GrantOption>, v: Server, w: Server, ok: bool, clean: bool)
    requires opts != [] && RefusedOutright(grantee, DbOf(opts[0], c), opts[0], v)
    requires ListRevoked(grantee, c, opts, v, w, ok, clean)
    ensures !ok && w == v
  {
    assert Shielded(grantee, c, opts, v, w, 0);
    assert RevokedAll(grantee, c, opts[..0], v.objects) == {};
    assert opts[0] in opts;
  }

  /** Yet no revoke, with faults or without, gets past the misspelt option, and CONNECT stays. */
  lemma MisspeltStays(app: string, db: string, schema: string, v: Server, w: Server, x: Server, revoked: bool,
                      clean: bool)
    requires db != "" && schema != ""
    requires ListGranted(app, "", Misspelt(db, schema), v, w, true, true)
    requires ListRevoked(app, "", Misspelt(db, schema), w, x, revoked, clean)
    ensures !revoked && x == w && Holding(app, OnDatabase(db), "CONNECT") in x.held
  {
    var opts := Misspelt(db, schema);
    MisspeltWord();
    RefusedFirst(app, "", opts, w, x, revoked, clean);
    ConnectIsGranted(app, db, v.objects);
    assert opts[1] in opts && opts[1] == ConnectOption(db);
  }

  /** EXECUTE on a function of a schema. */
  function FunctionOption(db: string, schema: string, f: string): GrantOption {
    GrantOption(db, schema, [], [], [f], ["EXECUTE"], false)
  }

  lemma ExecuteWord()
    ensures ValidPrivileges(["EXECUTE"], PgDialect) && Words(["EXECUTE"]) == {"EXECUTE"}
  {
    var w := "EXECUTE";
    NormalizeUpper(w);
    ListedAt(Allowlist(PgDialect), 11);
    assert Allowed(w, PgDialect) && [w][0] == w;
  }

  /** PostgreSQL grants it. */
  lemma FunctionGranted(app: string, db: string, schema: string, f: string, v: Server)
    requires app in v.roles && Obj(db, schema, Routine, f) in v.objects && schema != "" && v.refused == PgRefused()
    ensures GrantAccepted(app, db, FunctionOption(db, schema, f), v)
  {
    PgTakes(v);
    ExecuteWord();
    OneNameTaken(db, schema, Routine, f, {"EXECUTE"}, v);
    OneListedAccepted(app, db, FunctionOption(db, schema, f), v);
  }

  /**
   But revoking it begins with EXECUTE on all tables of the schema, which PostgreSQL has no notion of:
   no list that starts with it is ever revoked, not even in part.
   */
  lemma FunctionGrantStays(app: string, c: string, db: string, schema: string, f: string, behind: seq<GrantOption>,
                           v: Server, w: Server, revoked: bool, clean: bool)
    requires db != "" && schema != "" && v.refused == PgRefused()
    requires ListRevoked(app, c, [FunctionOption(db, schema, f)] + behind, v, w, revoked, clean)
    ensures !revoked && w == v
  {
    PgTablesRefuseExecute();
    ExecuteWord();
    RefusedFirst(app, c, [FunctionOption(db, schema, f)] + behind, v, w, revoked, clean);
  }

  /**
   The exact residue. Whatever part of the granting went through, a completed revoke of the same list
   leaves the earlier holdings minus the revoked ones, plus at most schema USAGE; after a complete
   grant it is exactly that USAGE. No grant option survives.
   */
  lemma GrantRevokeResidue(grantee: string, configured: string, opts: seq<GrantOption>, v: Server, w: Server,
                           x: Server, granted: bool)
    requires GrantOutcome(v, w, GrantedAll(grantee, configured, opts, v.objects),
                          RegrantedAll(grantee, configured, opts, v.objects), granted)
    requires RevokeOutcome(w, x, RevokedAll(grantee, configured, opts, w.objects), true)
    ensures var r, u := RevokedAll(grantee, configured, opts, v.objects), UsageAll(grantee, configured, opts);
            && x == v.(held := x.held, regrant := v.regrant - r)
            && v.held - r <= x.held <= (v.held - r) + u
            && (granted ==> x.held == (v.held - r) + u)
  {
    RevokeAllCoversGrantAll(grantee, configured, opts, v.objects);
  }

  // ----- The service strategy --------------------------------------------------------------------------------------

  datatype GrantSpec = GrantSpec(roles: seq<string>, grants: seq<GrantOption>, defaults: seq<DefaultOption>)

  datatype GrantResult = GrantResult(appliedRoles: seq<string>, appliedGrants: nat, appliedDefaults: nat)

  function Links(member: string, roles: seq<string>): set<(string, string)> {
    set r | r in roles :: (member, r)
  }

  function EntriesOf(grantee: string, configured: string, admin: string, opt: DefaultOption): set<DefaultEntry> {
    DefaultEntries(if opt.db == "" then configured else opt.db, opt.schema,
                   if opt.grantedBy == "" then admin else opt.grantedBy,
                   ToLower(opt.objectType), Words(opt.privileges), grantee)
  }

  function EntriesOfAll(grantee: string, configured: string, admin: string,
                        opts: seq<DefaultOption>): set<DefaultEntry> {
    set o, e | o in opts && e in EntriesOf(grantee, configured, admin, o) :: e
  }

  predicate RolesGrantable(grantee: string, roles: seq<string>, v: Server) {
    forall r :: r in roles ==> r in v.roles && grantee in v.roles && r != grantee
  }

  predicate RolesRevocable(grantee: string, roles: seq<string>, v: Server) {
    forall r :: r in roles ==> r in v.roles && grantee in v.roles
  }

  method GrantRoles(a: Adapter, grantee: string, roles: seq<string>) returns (ok: bool)
    modifies a
    ensures a.server == old(a.server).(memberships := a.server.memberships)
    ensures old(a.server).memberships <= a.server.memberships <= old(a.server).memberships + Links(grantee, roles)
    ensures ok ==> a.server.memberships == old(a.server).memberships + Links(grantee, roles)
    ensures ok ==> forall m :: m in a.server.memberships <==>
                               m in old(a.server).memberships || (m.0 == grantee && m.1 in roles)
    ensures ok || old(a.faults) == [] ==> ok == RolesGrantable(grantee, roles, old(a.server))
    ensures old(a.faults) == [] ==> a.faults == []
  {
    for i := 0 to |roles|
      invariant a.server == old(a.server).(memberships := old(a.server).memberships + Links(grantee, roles[..i]))
      invariant RolesGrantable(grantee, roles[..i], old(a.server))
      invariant old(a.faults) == [] ==> a.faults == []
    {
      assert roles[..i + 1] == roles[..i] + [roles[i]];
      assert Links(grantee, roles[..i + 1]) == Links(grantee, roles[..i]) + {(grantee, roles[i])};
      assert roles == roles[..i + 1] + roles[i + 1..];
      assert roles[i] in roles;
      ok := a.Exec(GrantMembership(roles[i], grantee));
      if !ok {
        return;
      }
    }
    assert roles[..|roles|] == roles;
    ok := true;
  }

  method RevokeRoles(a: Adapter, grantee: string, roles: seq<string>) returns (ok: bool)
    modifies a
    ensures a.server == old(a.server).(memberships := a.server.memberships)
    ensures old(a.server).memberships - Links(grantee, roles) <= a.server.memberships <= old(a.server).memberships
    ensures ok ==> a.server.memberships == old(a.server).memberships - Links(grantee, roles)
    ensures ok ==> forall m :: m in a.server.memberships <==>
                               m in old(a.server).memberships && !(m.0 == grantee && m.1 in roles)
    ensures ok || old(a.faults) == [] ==> ok == RolesRevocable(grantee, roles, old(a.server))
    ensures old(a.faults) == [] ==> a.faults == []
  {
    for i := 0 to |roles|
      invariant a.server == old(a.server).(memberships := old(a.server).memberships - Links(grantee, roles[..i]))
      invariant RolesRevocable(grantee, roles[..i], old(a.server))
      invariant old(a.faults) == [] ==> a.faults == []
    {
      assert roles[..i + 1] == roles[..i] + [roles[i]];
      assert Links(grantee, roles[..i + 1]) == Links(grantee, roles[..i]) + {(grantee, roles[i])};
      assert roles == roles[..i + 1] + roles[i + 1..];
      assert roles[i] in roles;
      ok := a.Exec(RevokeMembership(roles[i], grantee));
      if !ok {
        return;
      }
    }
    assert roles[..|roles|] == roles;
    ok := true;
  }

  lemma EntriesOfAllStep(grantee: string, configured: string, admin: string, opts: seq<DefaultOption>, i: nat)
    requires i < |opts|
    ensures EntriesOfAll(grantee, configured, admin, opts[..i + 1])
         == EntriesOfAll(grantee, configured, admin, opts[..i]) + EntriesOf(grantee, configured, admin, opts[i])
    ensures EntriesOfAll(grantee, configured, admin, opts[..i + 1]) <= EntriesOfAll(grantee, configured, admin, opts)
  {
    assert opts[..i + 1] == opts[..i] + [opts[i]];
  }

  /** Setting default privileges, however far it gets. */
  predicate DefaultsOutcome(v: Server, w: Server, more: set<DefaultEntry>, ok: bool) {
    && w == v.(defaults := w.defaults) && v.defaults <= w.defaults <= v.defaults + more
    && (ok ==> w.defaults == v.defaults + more)
  }

  ghost predicate DefaultAccepted(grantee: string, configured: string, opt: DefaultOption, v: Server) {
    Buildable(opt) && Legal(DefaultStmt(configured, grantee, opt), v)
  }

  ghost predicate DefaultsAccepted(grantee: string, configured: string, opts: seq<DefaultOption>, v: Server) {
    forall o :: o in opts ==> DefaultAccepted(grantee, configured, o, v)
  }

  lemma DefaultAcceptedSame(grantee: string, configured: string, opt: DefaultOption, v: Server, w: Server)
    requires SameCatalog(v, w)
    ensures DefaultAccepted(grantee, configured, opt, w) <==> DefaultAccepted(grantee, configured, opt, v)
  {}

  lemma DefaultsAcceptedStep(grantee: string, configured: string, opts: seq<DefaultOption>, i: nat, v: Server)
    requires i < |opts|
    ensures DefaultsAccepted(grantee, configured, opts[..i + 1], v)
            <==> DefaultsAccepted(grantee, configured, opts[..i], v) && DefaultAccepted(grantee, configured, opts[i], v)
    ensures DefaultsAccepted(grantee, configured, opts, v) ==> DefaultAccepted(grantee, configured, opts[i], v)
  {
    assert opts[..i + 1] == opts[..i] + [opts[i]];
  }

  lemma DefaultsChain(v: Server, u: Server, w: Server, e: set<DefaultEntry>, e1: set<DefaultEntry>,
                      e2: set<DefaultEntry>,
                      all: set<DefaultEntry>, ok: bool)
    requires DefaultsOutcome(v, u, e, true) && DefaultsOutcome(u, w, e1, ok) && e2 == e + e1 && e2 <= all
    ensures DefaultsOutcome(v, w, all, false) && (ok ==> DefaultsOutcome(v, w, e2, true))
  {}

  method SetOneDefault(a: Adapter, grantee: string, opt: DefaultOption) returns (ok: bool)
    modifies a
    ensures DefaultsOutcome(old(a.server), a.server, EntriesOf(grantee, a.database, old(a.server).admin, opt), ok)
    ensures ok || old(a.faults) == [] ==> ok == DefaultAccepted(grantee, a.database, opt, old(a.server))
    ensures old(a.faults) == [] ==> a.faults == []
  {
    ok := a.SetDefaultPrivilege(grantee, opt);
  }

  method SetDefaultPrivileges(a: Adapter, grantee: string, opts: seq<DefaultOption>) returns (ok: bool)
    modifies a
    ensures DefaultsOutcome(old(a.server), a.server, EntriesOfAll(grantee, a.database, old(a.server).admin, opts), ok)
    ensures ok || old(a.faults) == [] ==> ok == DefaultsAccepted(grantee, a.database, opts, old(a.server))
    ensures old(a.faults) == [] ==> a.faults == []
  {
    ghost var v, c := a.server, a.database;
    for i := 0 to |opts|
      invariant DefaultsOutcome(v, a.server, EntriesOfAll(grantee, c, v.admin, opts[..i]), true)
      invariant DefaultsAccepted(grantee, c, opts[..i], v)
      invariant old(a.faults) == [] ==> a.faults == []
    {
      ghost var u := a.server;
      DefaultAcceptedSame(grantee, c, opts[i], v, u);
      DefaultsAcceptedStep(grantee, c, opts, i, v);
      ok := SetOneDefault(a, grantee, opts[i]);
      EntriesOfAllStep(grantee, c, v.admin, opts, i);
      DefaultsChain(v, u, a.server, EntriesOfAll(grantee, c, v.admin, opts[..i]),
                    EntriesOf(grantee, c, v.admin, opts[i]),
                    EntriesOfAll(grantee, c, v.admin, opts[..i + 1]), EntriesOfAll(grantee, c, v.admin, opts), ok);
      if !ok {
        return;
      }
    }
    assert opts[..|opts|] == opts;
    ok := true;
  }

  /** When applying a spec without faults completes. */
  ghost predicate Applicable(user: string, configured: string, spec: GrantSpec, v: Server) {
    && RolesGrantable(user, spec.roles, v) && GrantAcceptedAll(user, configured, spec.grants, v)
    && DefaultsAccepted(user, configured, spec.defaults, v)
  }

  /** When revoking a spec without faults completes. */
  ghost predicate Withdrawable(user: string, configured: string, spec: GrantSpec, v: Server) {
    RolesRevocable(user, spec.roles, v) && RevokeAcceptedAll(user, configured, spec.grants, v)
  }

  /** Applying a spec, however far it gets. */
  ghost predicate ApplyOutcome(user: string, configured: string, spec: GrantSpec, v: Server, w: Server, ok: bool,
                               clean: bool) {
    var g, o := GrantedAll(user, configured, spec.grants, v.objects),
                RegrantedAll(user, configured, spec.grants, v.objects);
    var m, d := Links(user, spec.roles), EntriesOfAll(user, configured, v.admin, spec.defaults);
    && w == v.(memberships := w.memberships, held := w.held, regrant := w.regrant, defaults := w.defaults)
    && v.memberships <= w.memberships <= v.memberships + m
    && v.held <= w.held <= v.held + g && v.regrant <= w.regrant <= v.regrant + o
    && v.defaults <= w.defaults <= v.defaults + d
    && (ok ==> w == v.(memberships := v.memberships + m, held := v.held + g, regrant := v.regrant + o,
                       defaults := v.defaults + d))
    && (ok || clean ==> ok == Applicable(user, configured, spec, v))
  }

  /** Revoking a spec, however far it gets: nothing of the grants is revoked before all roles are. */
  ghost predicate WithdrawOutcome(user: string, configured: string, spec: GrantSpec, v: Server, w: Server, ok: bool,
                                  clean: bool) {
    var r, m := RevokedAll(user, configured, spec.grants, v.objects), Links(user, spec.roles);
    && w == v.(memberships := w.memberships, held := w.held, regrant := w.regrant)
    && v.memberships - m <= w.memberships <= v.memberships
    && v.held - r <= w.held <= v.held && v.regrant - r <= w.regrant <= v.regrant
    && (ok ==> w == v.(memberships := v.memberships - m, held := v.held - r, regrant := v.regrant - r))
    && (ok || clean ==> ok == Withdrawable(user, configured, spec, v))
    && (clean && RolesRevocable(user, spec.roles, v) ==>
          var u := v.(memberships := v.memberships - m);
          w.memberships == u.memberships && ListRevoked(user, configured, spec.grants, u, w, ok, true))
  }

  /** Granting roles, however far it gets. */
  predicate RolesOutcome(user: string, roles: seq<string>, v: Server, w: Server, ok: bool, clean: bool) {
    && w == v.(memberships := w.memberships) && v.memberships <= w.memberships <= v.memberships + Links(user, roles)
    && (ok ==> w.memberships == v.memberships + Links(user, roles))
    && (ok || clean ==> ok == RolesGrantable(user, roles, v))
  }

  lemma DefaultsAcceptedSame(grantee: string, configured: string, opts: seq<DefaultOption>, v: Server, w: Server)
    requires SameCatalog(v, w)
    ensures DefaultsAccepted(grantee, configured, opts, w) <==> DefaultsAccepted(grantee, configured, opts, v)
  {
    forall o | o in opts
      ensures DefaultAccepted(grantee, configured, o, w) <==> DefaultAccepted(grantee, configured, o, v)
    {
      DefaultAcceptedSame(grantee, configured, o, v, w);
    }
  }

  lemma ApplyStoppedAtRoles(user: string, c: string, spec: GrantSpec, v: Server, w: Server, clean: bool)
    requires RolesOutcome(user, spec.roles, v, w, false, clean)
    ensures ApplyOutcome(user, c, spec, v, w, false, clean)
  {}

  lemma ApplyStoppedAtGrants(user: string, c: string, spec: GrantSpec, v: Server, u: Server, w: Server, clean: bool)
    requires RolesOutcome(user, spec.roles, v, u, true, clean) && ListGranted(user, c, spec.grants, u, w, false, clean)
    ensures ApplyOutcome(user, c, spec, v, w, false, clean)
  {
    AcceptanceAllSame(user, c, spec.grants, v, u);
  }

  lemma ApplyReachedDefaults(user: string, c: string, spec: GrantSpec, v: Server, u: Server, u': Server, w: Server,
                             ok: bool, clean: bool)
    requires RolesOutcome(user, spec.roles, v, u, true, clean) && ListGranted(user, c, spec.grants, u, u', true, clean)
    requires DefaultsOutcome(u', w, EntriesOfAll(user, c, u'.admin, spec.defaults), ok)
    requires ok || clean ==> ok == DefaultsAccepted(user, c, spec.defaults, u')
    ensures ApplyOutcome(user, c, spec, v, w, ok, clean)
  {
    AcceptanceAllSame(user, c, spec.grants, v, u);
    DefaultsAcceptedSame(user, c, spec.defaults, v, u');
  }

  lemma NothingToGrant(user: string, c: string, v: Server, clean: bool)
    ensures ListGranted(user, c, [], v, v, true, clean) && ListRevoked(user, c, [], v, v, true, clean)
  {
    assert RevokedAll(user, c, [], v.objects) == {};
    RevokeCompleted(user, c, [], v, v, clean);
  }

  /** Roles, then direct grants, then default privileges; the first failure ends it. */
  method Apply(a: Adapter, user: string, spec: Option<GrantSpec>) returns (result: Option<GrantResult>)
    modifies a
    ensures spec.None? ==> a.server == old(a.server) && result == Some(GrantResult([], 0, 0))
    ensures spec.Some? ==>
              ApplyOutcome(user, a.database, spec.value, old(a.server), a.server, result.Some?, old(a.faults) == [])
    ensures spec.Some? && result.Some? ==>
              result.value == GrantResult(spec.value.roles, |spec.value.grants|, |spec.value.defaults|)
  {
    var r := GrantResult([], 0, 0);
    if spec.None? {
      return Some(r);
    }
    ghost var v, c, clean, s := a.server, a.database, a.faults == [], spec.value;
    var ok := true;
    if |spec.value.roles| > 0 {
      ok := GrantRoles(a, user, spec.value.roles);
      if !ok {
        ApplyStoppedAtRoles(user, c, s, v, a.server, clean);
        return None;
      }
      r := r.(appliedRoles := spec.value.roles);
    }
    ghost var u := a.server;
    assert RolesOutcome(user, s.roles, v, u, true, clean);
    NothingToGrant(user, c, u, clean);
    if |spec.value.grants| > 0 {
      ok := Grant(a, user, spec.value.grants);
      if !ok {
        ApplyStoppedAtGrants(user, c, s, v, u, a.server, clean);
        return None;
      }
      r := r.(appliedGrants := |spec.value.grants|);
    }
    ghost var u' := a.server;
    assert ListGranted(user, c, s.grants, u, u', true, clean);
    if |spec.value.defaults| > 0 {
      ok := SetDefaultPrivileges(a, user, spec.value.defaults);
      r := r.(appliedDefaults := |spec.value.defaults|);
    }
    ApplyReachedDefaults(user, c, s, v, u, u', a.server, ok, clean);
    result := if ok then Some(r) else None;
  }

  /** Roles, then direct grants; default privileges are not revoked. */
  method Withdraw(a: Adapter, user: string, spec: Option<GrantSpec>) returns (ok: bool, revoked: nat)
    modifies a
    ensures spec.None? ==> a.server == old(a.server) && ok && revoked == 0
    ensures spec.Some? ==>
              WithdrawOutcome(user, a.database, spec.value, old(a.server), a.server, ok, old(a.faults) == [])
    ensures spec.Some? ==> revoked == if ok then |spec.value.roles| + |spec.value.grants| else 0
  {
    ok, revoked := true, 0;
    if spec.None? {
      return;
    }
    if |spec.value.roles| > 0 {
      ok := RevokeRoles(a, user, spec.value.roles);
      if !ok {
        return;
      }
      revoked := revoked + |spec.value.roles|;
    }
    if |spec.value.grants| > 0 {
      ok := Revoke(a, user, spec.value.grants);
      if !ok {
        return false, 0;
      }
      revoked := revoked + |spec.value.grants|;
    }
  }

  /**
   The exact residue of apply then revoke: default privileges and schema USAGE stay; memberships and
   holdings end as if the spec's roles and revoke footprint had been withdrawn from the start state,
   even where the spec had been applied only in part.
   */
  lemma ApplyWithdrawResidue(user: string, configured: string, spec: GrantSpec, v: Server, w: Server, x: Server,
                             applied: bool)
    requires ApplyOutcome(user, configured, spec, v, w, applied, false)
    requires WithdrawOutcome(user, configured, spec, w, x, true, false)
    ensures var r, u := RevokedAll(user, configured, spec.grants, v.objects), UsageAll(user, configured, spec.grants);
            var d := EntriesOfAll(user, configured, v.admin, spec.defaults);
            && x == v.(memberships := v.memberships - Links(user, spec.roles), held := x.held, regrant := v.regrant - r,
                       defaults := x.defaults)
            && v.held - r <= x.held <= (v.held - r) + u && v.defaults <= x.defaults <= v.defaults + d
            && (applied ==> x.held == (v.held - r) + u && x.defaults == v.defaults + d)
  {
    RevokeAllCoversGrantAll(user, configured, spec.grants, v.objects);
    assert x.memberships == v.memberships - Links(user, spec.roles);
    assert x.regrant == v.regrant - RevokedAll(user, configured, spec.grants, v.objects);
  }

  /**
   Applying a spec and revoking it, without faults: revoking completes exactly if every grant option is
   revocable. Roles always go; grants go up to the first option that is not revocable; default
   privileges stay.
   */
  lemma WithdrawAfterApply(user: string, configured: string, spec: GrantSpec, v: Server, w: Server, x: Server,
                           withdrawn: bool)
    requires ApplyOutcome(user, configured, spec, v, w, true, true)
    requires WithdrawOutcome(user, configured, spec, w, x, withdrawn, true)
    ensures withdrawn <==> forall o :: o in spec.grants ==> Revocable(DbOf(o, configured), o, v)
    ensures var r := RevokedAll(user, configured, spec.grants[..Stop(configured, spec.grants, v)], v.objects);
            && x == v.(memberships := v.memberships - Links(user, spec.roles),
                       held := v.held + GrantedAll(user, configured, spec.grants, v.objects) - r,
                       regrant := v.regrant + RegrantedAll(user, configured, spec.grants, v.objects) - r,
                       defaults := v.defaults + EntriesOfAll(user, configured, v.admin, spec.defaults))
            && (withdrawn ==>
                  x.held == v.held - r + UsageAll(user, configured, spec.grants) && x.regrant == v.regrant - r)
  {
    var k := Stop(configured, spec.grants, v);
    var u := w.(memberships := w.memberships - Links(user, spec.roles));
    assert u.memberships == v.memberships - Links(user, spec.roles);
    AcceptanceAllSame(user, configured, spec.grants, v, u);
    StopSame(configured, spec.grants, v, u, 0);
    RevokedUpToStop(user, configured, spec.grants, u, x, withdrawn);
    if withdrawn {
      assert spec.grants[..k] == spec.grants;
      RevokeAllCoversGrantAll(user, configured, spec.grants, v.objects);
      SetResidue(v.held, GrantedAll(user, configured, spec.grants, v.objects),
                 RevokedAll(user, configured, spec.grants, v.objects),
                 UsageAll(user, configured, spec.grants));
      SetResidue(v.regrant, RegrantedAll(user, configured, spec.grants, v.objects),
                 RevokedAll(user, configured, spec.grants, v.objects), {});
    } else {
      assert spec.grants[k] in spec.grants;
    }
  }

  // ----- The footprints in plain terms ---------------------------------------------------------------------------

  /** One of the listed privileges, trimmed and in upper case, stands for `a` on this sort of securables. */
  ghost predicate Means(privileges: seq<string>, sort: Sort, a: string) {
    exists p :: p in privileges && a in Atom(sort, ToUpper(TrimSpace(p)))
  }

  /** One of the listed privileges is, in upper case, a keyword for tables. */
  ghost predicate NamesTablePrivilege(privileges: seq<string>) {
    exists p :: p in privileges
                && ToUpper(p) in {"SELECT", "INSERT", "UPDATE", "DELETE", "TRUNCATE", "REFERENCES", "TRIGGER", "ALL"}
  }

  lemma TablePrivilegeLiterally(privileges: seq<string>)
    ensures HasTablePrivilege(privileges) <==> NamesTablePrivilege(privileges)
  {
    var words := {"SELECT", "INSERT", "UPDATE", "DELETE", "TRUNCATE", "REFERENCES", "TRIGGER", "ALL"};
    forall p | p in privileges ensures Listed(ToUpper(p), TableWords()) <==> ToUpper(p) in words {
      TableWordLiterally(ToUpper(p));
    }
  }

  lemma TableWordLiterally(w: string)
    ensures Listed(w, TableWords())
            <==> w in {"SELECT", "INSERT", "UPDATE", "DELETE", "TRUNCATE", "REFERENCES", "TRIGGER", "ALL"}
  {
    var list := TableWords();
    if Listed(w, list) {
      ListedIn(w, list, 0);
    }
    forall i | 0 <= i < |list| ensures Listed(list[i], list) {
      ListedAt(list, i);
    }
    assert list[0] == "SELECT" && list[1] == "INSERT" && list[2] == "UPDATE" && list[3] == "DELETE";
    assert list[4] == "TRUNCATE" && list[5] == "REFERENCES" && list[6] == "TRIGGER" && list[7] == "ALL";
  }

  /** The option lists this object, in its schema or, without one, in public. */
  ghost predicate Lists(opt: GrantOption, db: string, o: Obj) {
    && o.db == db && o.schema == (if opt.schema == "" then "public" else opt.schema)
    && match o.kind
       case Table => o.name in opt.tables
       case Sequence => o.name in opt.sequences
       case Routine => o.name in opt.functions
  }

  /** The option names nothing but privileges, and perhaps a schema. */
  ghost predicate ListsNothing(opt: GrantOption) {
    |opt.tables| == 0 && |opt.sequences| == 0 && |opt.functions| == 0
  }

  /** What granting an option to `grantee` in `db` is meant to give. */
  ghost predicate Gives(grantee: string, db: string, opt: GrantOption, objects: map<Obj, string>, h: Holding) {
    && h.grantee == grantee
    && match h.on
       case OnDatabase(d) =>
         d == db && opt.schema == "" && ListsNothing(opt) && Means(opt.privileges, DatabaseSort, h.privilege)
       case OnSchema(d, sc) => d == db && sc == opt.schema != "" && ListsNothing(opt) && h.privilege == "USAGE"
       case OnObject(o) =>
         && Means(opt.privileges, SortOfKind(o.kind), h.privilege)
         && (|| Lists(opt, db, o)
             || (&& ListsNothing(opt) && NamesTablePrivilege(opt.privileges)
                 && o in objects && o.kind == Table && o.db == db && o.schema == opt.schema != ""))
  }

  /** What revoking an option is meant to take. */
  ghost predicate TakesBack(grantee: string, db: string, opt: GrantOption, objects: map<Obj, string>, h: Holding) {
    && h.grantee == grantee
    && match h.on
       case OnDatabase(d) =>
         d == db && opt.schema == "" && ListsNothing(opt) && Means(opt.privileges, DatabaseSort, h.privilege)
       case OnSchema(_, _) => false
       case OnObject(o) =>
         && Means(opt.privileges, SortOfKind(o.kind), h.privilege)
         && (|| Lists(opt, db, o)
             || (|opt.tables| == 0 && o in objects && o.kind == Table && o.db == db && o.schema == opt.schema != ""))
  }

  lemma AtomsMean(privileges: seq<string>, on: Securable, a: string)
    ensures a in Atoms(on, Words(privileges)) <==> Means(privileges, SortOf(on), a)
  {
    if a in Atoms(on, Words(privileges)) {
      var w :| w in Words(privileges) && a in Atom(SortOf(on), w);
      var p :| p in privileges && Normalize(p) == w;
      assert a in Atom(SortOf(on), ToUpper(TrimSpace(p)));
    }
    if Means(privileges, SortOf(on), a) {
      var p :| p in privileges && a in Atom(SortOf(on), ToUpper(TrimSpace(p)));
      assert Normalize(p) in Words(privileges);
    }
  }

  lemma OnNamedPlainly(grantee: string, db: string, schema: string, kind: Kind, names: seq<string>,
                       privileges: seq<string>, h: Holding)
    ensures h in OnNamed(grantee, db, schema, kind, names, Words(privileges))
            <==> && h.grantee == grantee && h.on.OnObject? && h.on.obj.name in names && h.on.obj.kind == kind
                 && h.on.obj == Located(db, schema, kind, h.on.obj.name)
                 && Means(privileges, SortOfKind(kind), h.privilege)
  {
    AtomsMean(privileges, h.on, h.privilege);
    if h in OnNamed(grantee, db, schema, kind, names, Words(privileges)) {
      var n :| n in names && h in Holdings(ToObject(Located(db, schema, kind, n)), Words(privileges), grantee, map[]);
    }
    if h.on.OnObject? && h.on.obj.name in names && h.on.obj == Located(db, schema, kind, h.on.obj.name)
       && h.grantee == grantee && Means(privileges, SortOfKind(kind), h.privilege) {
      assert h in Holdings(ToObject(Located(db, schema, kind, h.on.obj.name)), Words(privileges), grantee, map[]);
    }
  }

  lemma OnListedPlainly(grantee: string, db: string, opt: GrantOption, h: Holding)
    ensures h in OnListed(grantee, db, opt)
            <==> && h.grantee == grantee && h.on.OnObject? && Lists(opt, db, h.on.obj)
                 && Means(opt.privileges, SortOf(h.on), h.privilege)
  {
    OnNamedPlainly(grantee, db, opt.schema, Table, opt.tables, opt.privileges, h);
    OnNamedPlainly(grantee, db, opt.schema, Sequence, opt.sequences, opt.privileges, h);
    OnNamedPlainly(grantee, db, opt.schema, Routine, opt.functions, opt.privileges, h);
  }

  lemma OnTablesPlainly(grantee: string, db: string, opt: GrantOption, objects: map<Obj, string>, h: Holding)
    ensures h in OnSchemaTables(grantee, db, opt, objects)
            <==> && h.grantee == grantee && h.on.OnObject? && h.on.obj in objects && h.on.obj.kind == Table
                 && h.on.obj.db == db && h.on.obj.schema == opt.schema
                 && Means(opt.privileges, TableSort, h.privilege)
  {
    AtomsMean(opt.privileges, h.on, h.privilege);
  }

  lemma OnDatabasePlainly(grantee: string, db: string, opt: GrantOption, h: Holding)
    ensures h in OnWholeDatabase(grantee, db, opt)
            <==> h.grantee == grantee && h.on == OnDatabase(db) && Means(opt.privileges, DatabaseSort, h.privilege)
  {
    AtomsMean(opt.privileges, h.on, h.privilege);
  }

  /** Granting gives exactly what the option says. */
  lemma GrantedExactly(grantee: string, db: string, opt: GrantOption, objects: map<Obj, string>, h: Holding)
    ensures h in Granted(grantee, db, opt, objects) <==> Gives(grantee, db, opt, objects, h)
  {
    TablePrivilegeLiterally(opt.privileges);
    OnListedPlainly(grantee, db, opt, h);
    OnTablesPlainly(grantee, db, opt, objects, h);
    OnDatabasePlainly(grantee, db, opt, h);
  }

  /** SELECT on a schema is SELECT on each of its tables. */
  lemma SelectReachesTables(grantee: string, t: Obj, objects: map<Obj, string>)
    requires t in objects && t.kind == Table && t.schema != ""
    ensures Holding(grantee, OnObject(t), "SELECT")
            in Granted(grantee, t.db, GrantOption(t.db, t.schema, [], [], [], ["SELECT"], false), objects)
  {
    var opt := GrantOption(t.db, t.schema, [], [], [], ["SELECT"], false);
    NormalizeUpper("SELECT");
    assert ToUpper("SELECT") == "SELECT" && "SELECT" in opt.privileges;
    assert "SELECT" in Atom(TableSort, ToUpper(TrimSpace("SELECT")));
    GrantedExactly(grantee, t.db, opt, objects, Holding(grantee, OnObject(t), "SELECT"));
  }

  /** Grant options come with all of it but schema USAGE, if asked for. */
  lemma RegrantedExactly(grantee: string, db: string, opt: GrantOption, objects: map<Obj, string>, h: Holding)
    ensures h in Regranted(grantee, db, opt, objects)
            <==> opt.withGrantOption && !h.on.OnSchema? && Gives(grantee, db, opt, objects, h)
  {
    GrantedExactly(grantee, db, opt, objects, h);
    RevokeCoversGrant(grantee, db, opt, objects);
  }

  /** Revoking takes exactly what the option says. */
  lemma RevokedExactly(grantee: string, db: string, opt: GrantOption, objects: map<Obj, string>, h: Holding)
    ensures h in Revoked(grantee, db, opt, objects) <==> TakesBack(grantee, db, opt, objects, h)
  {
    OnListedPlainly(grantee, db, opt, h);
    OnTablesPlainly(grantee, db, opt, objects, h);
    OnDatabasePlainly(grantee, db, opt, h);
  }

  /** The option is about `db`: its own database, or the configured one if it names none. */
  predicate IsAbout(opt: GrantOption, configured: string, db: string) {
    (opt.db != "" && db == opt.db) || (opt.db == "" && db == configured)
  }

  /** A list gives what its options give, each in its own database or, unnamed, in the configured one. */
  lemma ListGrantsExactly(grantee: string, configured: string, opts: seq<GrantOption>, objects: map<Obj, string>,
                          h: Holding)
    ensures h in GrantedAll(grantee, configured, opts, objects)
            <==> exists o, db :: o in opts && IsAbout(o, configured, db) && Gives(grantee, db, o, objects, h)
    ensures h in RevokedAll(grantee, configured, opts, objects)
            <==> exists o, db :: o in opts && IsAbout(o, configured, db) && TakesBack(grantee, db, o, objects, h)
  {
    forall o, db | o in opts && IsAbout(o, configured, db)
      ensures db == DbOf(o, configured)
      ensures h in Granted(grantee, db, o, objects) <==> Gives(grantee, db, o, objects, h)
      ensures h in Revoked(grantee, db, o, objects) <==> TakesBack(grantee, db, o, objects, h)
    {
      GrantedExactly(grantee, db, o, objects, h);
      RevokedExactly(grantee, db, o, objects, h);
    }
    if h in GrantedAll(grantee, configured, opts, objects) {
      var o :| o in opts && h in Granted(grantee, DbOf(o, configured), o, objects);
      assert IsAbout(o, configured, DbOf(o, configured));
    }
    if h in RevokedAll(grantee, configured, opts, objects) {
      var o :| o in opts && h in Revoked(grantee, DbOf(o, configured), o, objects);
      assert IsAbout(o, configured, DbOf(o, configured));
    }
  }

  /**
   Only the user's own holdings are ever touched, and only in databases that its options name, or in the
   configured one if some option names none.
   */
  lemma OthersUntouched(user: string, configured: string, opts: seq<GrantOption>, objects: map<Obj, string>, h: Holding)
    requires h in GrantedAll(user, configured, opts, objects) + RevokedAll(user, configured, opts, objects)
    ensures h.grantee == user
    ensures || (exists o :: o in opts && o.db != "" && DbOfSecurable(h.on) == o.db)
            || (DbOfSecurable(h.on) == configured && exists o :: o in opts && o.db == "")
  {
    ListGrantsExactly(user, configured, opts, objects, h);
    var o, db :| && o in opts && IsAbout(o, configured, db)
                 && (Gives(user, db, o, objects, h) || TakesBack(user, db, o, objects, h));
    assert DbOfSecurable(h.on) == db;
  }
}
