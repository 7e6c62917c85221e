/** The ownership provisioning pipeline, run against an adapter whose calls may fail. */
module Provision {
  import opened Text
  import opened Privileges
  import opened Catalog
  import opened Ownership
  import Derive

  // ----- Outcomes of one step and of one run ----------------------------------------------

  /**
   What a step leaves behind: whatever fails, the state stays between start and the step's goal;
   success means the goal exactly; without faults, success is decided by `StepReady`.
   */
  ghost predicate StepOutcome(p: Plan, step: Step, v: Server, w: Server, ok: bool, clean: bool) {
    && Between(v, w, StepGoal(p, step, v))
    && (ok ==> w == StepGoal(p, step, v) && StepReady(p, step, v))
    && (clean ==> ok == StepReady(p, step, v))
  }

  /** Every state seen since `before` lies between `v` and `t`. */
  ghost predicate Recorded(before: set<Server>, seen: set<Server>, v: Server, t: Server) {
    before <= seen && forall x :: x in seen ==> x in before || Between(v, x, t)
  }

  // ----- Steps ---------------------------------------------------------------------------

  method EnsureOwnerRole(a: Adapter, p: Plan) returns (ok: bool)
    modifies a
    ensures StepOutcome(p, CreateOwnerRole, old(a.server), a.server, ok, old(a.faults) == [])
    ensures Recorded(old(a.seen), a.seen, old(a.server), StepGoal(p, CreateOwnerRole, old(a.server)))
    ensures old(a.faults) == [] ==> a.faults == []
  {
    var found;
    ok, found := a.RoleExists(p.role);
    if !ok || found {
      return;
    }
    ok := a.Exec(CreateRole(p.role, false));
  }

  datatype CreateResult = Created | AlreadyExists

  lemma DatabaseStates(p: Plan, v: Server)
    ensures var t := StepGoal(p, EnsureDatabase, v);
            && Between(v, v, t) && Between(v, t, t)
            && (p.db !in v.databases ==> t == Effect(CreateDatabase(p.db, p.role), v))
  {}

  /** CreateOnly: an existing database is a success; an empty name is a validation error. */
  method CreateOnly(a: Adapter, p: Plan) returns (ok: bool, result: Option<CreateResult>)
    modifies a
    ensures StepOutcome(p, EnsureDatabase, old(a.server), a.server, ok, old(a.faults) == [])
    ensures Recorded(old(a.seen), a.seen, old(a.server), StepGoal(p, EnsureDatabase, old(a.server)))
    ensures old(a.faults) == [] ==> a.faults == []
    ensures ok <==> result.Some?
    ensures ok ==> (result.value == AlreadyExists <==> p.db in old(a.server).databases)
  {
    DatabaseStates(p, a.server);
    if p.db == "" {
      return false, None;
    }
    ok := a.Query();
    if !ok {
      return false, None;
    }
    if p.db in a.server.databases {
      return true, Some(AlreadyExists);
    }
    ok := a.Exec(CreateDatabase(p.db, p.role));
    result := if ok then Some(Created) else None;
  }

  method VerifyDatabaseAccess(a: Adapter, p: Plan) returns (ok: bool)
    modifies a
    ensures StepOutcome(p, VerifyAccess, old(a.server), a.server, ok, old(a.faults) == [])
    ensures Recorded(old(a.seen), a.seen, old(a.server), StepGoal(p, VerifyAccess, old(a.server)))
    ensures old(a.faults) == [] ==> a.faults == []
  {
    ok := a.Exec(SelectOne(p.db));
  }

  method Transfer(a: Adapter, p: Plan) returns (ok: bool)
    modifies a
    ensures StepOutcome(p, TransferOwnership, old(a.server), a.server, ok, old(a.faults) == [])
    ensures Recorded(old(a.seen), a.seen, old(a.server), StepGoal(p, TransferOwnership, old(a.server)))
    ensures old(a.faults) == [] ==> a.faults == []
  {
    ok := a.Exec(AlterOwner(p.db, p.role));
  }

  /** The three states the user step can leave behind. */
  lemma UserStates(p: Plan, v: Server)
    ensures var u, t := v.(roles := AddIfMissing(v.roles, p.user, true)), StepGoal(p, CreateAppUser, v);
            && Between(v, v, t) && Between(v, u, t) && Between(v, t, t)
            && t == Effect(GrantMembership(p.role, p.user), u)
            && (Legal(GrantMembership(p.role, p.user), u) <==> StepReady(p, CreateAppUser, v))
  {}

  method EnsureOwnerUser(a: Adapter, p: Plan) returns (ok: bool)
    modifies a
    ensures StepOutcome(p, CreateAppUser, old(a.server), a.server, ok, old(a.faults) == [])
    ensures Recorded(old(a.seen), a.seen, old(a.server), StepGoal(p, CreateAppUser, old(a.server)))
    ensures old(a.faults) == [] ==> a.faults == []
  {
    UserStates(p, a.server);
    var found;
    ok, found := a.RoleExists(p.user);
    if !ok {
      return;
    }
    if !found {
      ok := a.Exec(CreateRole(p.user, true));
      if !ok {
        return;
      }
    }
    ok := a.Exec(GrantMembership(p.role, p.user));
  }

  // ----- Default privileges ----------------------------------------------------------------

  /** `w` differs from `v` only by default privileges added from `more`. */
  predicate Adds(v: Server, w: Server, more: set<DefaultEntry>) {
    w == v.(defaults := w.defaults) && v.defaults <= w.defaults <= v.defaults + more
  }

  ghost predicate RecordedAdds(before: set<Server>, seen: set<Server>, v: Server, more: set<DefaultEntry>) {
    before <= seen && forall x :: x in seen ==> x in before || Adds(v, x, more)
  }

  /** What setting the default privileges `more` leaves behind; `accepted` says when the server takes them. */
  ghost predicate AddsOutcome(v: Server, w: Server, more: set<DefaultEntry>, accepted: bool, ok: bool, clean: bool) {
    && Adds(v, w, more)
    && (ok ==> w.defaults == v.defaults + more && accepted)
    && (clean ==> ok == accepted)
  }

  predicate Accepts(v: Server, db: string, schemas: set<string>, defs: seq<PrivilegeDef>, role: string, user: string) {
    && db in v.databases && role in v.roles && user in v.roles && DefsTaken(defs, v)
    && (v.strictSchemas ==> forall n :: n in schemas ==> n == "" || (db, n) in v.schemas)
  }

  lemma DirectionSnoc(db: string, schemas: set<string>, defs: seq<PrivilegeDef>, d: PrivilegeDef, creator: string,
                      grantee: string)
    ensures Direction(db, schemas, defs + [d], creator, grantee)
         == Direction(db, schemas, defs, creator, grantee) + Direction(db, schemas, [d], creator, grantee)
  {}

  lemma DirectionUnion(db: string, x: set<string>, y: set<string>, defs: seq<PrivilegeDef>, creator: string,
                       grantee: string)
    ensures Direction(db, x + y, defs, creator, grantee)
         == Direction(db, x, defs, creator, grantee) + Direction(db, y, defs, creator, grantee)
  {}

  lemma DirectionOne(db: string, sc: string, d: PrivilegeDef, creator: string, grantee: string)
    ensures Direction(db, {sc}, [d], creator, grantee)
         == DefaultEntries(db, sc, creator, d.objectType, (set p | p in d.privileges), grantee)
  {}

  /** What the server needs in order to take one definition on one schema. */
  lemma StandardLegal(c: string, db: string, sc: string, creator: string, d: PrivilegeDef, grantee: string, v: Server)
    requires WellFormed(d) && db != "" && creator != "" && grantee != ""
    ensures var opt := DefaultOption(db, sc, creator, d.objectType, d.privileges);
            Buildable(opt) && (Legal(DefaultStmt(c, grantee, opt), v) <==> Accepts(v, db, {sc}, [d], creator, grantee))
  {
    assert d in [d];
    assert DefsTaken([d], v) <==> DefTaken(d, v);
  }

  /** One object type, one schema, one direction. */
  method SetStandard(a: Adapter, db: string, sc: string, creator: string, d: PrivilegeDef, grantee: string)
    returns (ok: bool)
    requires WellFormed(d) && db != "" && creator != "" && grantee != ""
    modifies a
    ensures AddsOutcome(old(a.server), a.server, Direction(db, {sc}, [d], creator, grantee),
                        Accepts(old(a.server), db, {sc}, [d], creator, grantee), ok, old(a.faults) == [])
    ensures RecordedAdds(old(a.seen), a.seen, old(a.server), Direction(db, {sc}, [d], creator, grantee))
    ensures old(a.faults) == [] ==> a.faults == []
  {
    DirectionOne(db, sc, d, creator, grantee);
    StandardLegal(a.database, db, sc, creator, d, grantee, a.server);
    ok := a.SetDefaultPrivilege(grantee, DefaultOption(db, sc, creator, d.objectType, d.privileges));
  }

  /** Chaining: after `e0` has been added, adding from `e1` stays within `all`. */
  lemma AddsChain(v: Server, u: Server, w: Server, e0: set<DefaultEntry>, e1: set<DefaultEntry>, all: set<DefaultEntry>)
    requires u == v.(defaults := v.defaults + e0) && Adds(u, w, e1) && e0 <= all && e1 <= all
    ensures Adds(v, w, all)
    ensures w.defaults == u.defaults + e1 ==> w == v.(defaults := v.defaults + (e0 + e1))
  {
    assert v.defaults + e0 + e1 == v.defaults + (e0 + e1);
  }

  lemma RecordedChain(t0: set<Server>, t1: set<Server>, t2: set<Server>, v: Server, u: Server,
                      e0: set<DefaultEntry>, e1: set<DefaultEntry>, all: set<DefaultEntry>)
    requires RecordedAdds(t0, t1, v, all) && RecordedAdds(t1, t2, u, e1)
    requires u == v.(defaults := v.defaults + e0) && e0 <= all && e1 <= all
    ensures RecordedAdds(t0, t2, v, all)
  {
    forall x | x in t2 && x !in t1 ensures Adds(v, x, all) {
      AddsChain(v, u, x, e0, e1, all);
    }
  }

  /** Both in one step, for a loop that has added `e0` of `all` and goes on to `e0'`. */
  lemma Chain(v: Server, u: Server, w: Server, t0: set<Server>, t1: set<Server>, t2: set<Server>,
              e0: set<DefaultEntry>, e1: set<DefaultEntry>, e0': set<DefaultEntry>, all: set<DefaultEntry>)
    requires u == v.(defaults := v.defaults + e0) && e0' == e0 + e1 && e0' <= all
    requires Adds(u, w, e1) && RecordedAdds(t0, t1, v, all) && RecordedAdds(t1, t2, u, e1)
    ensures Adds(v, w, all) && RecordedAdds(t0, t2, v, all)
    ensures w.defaults == u.defaults + e1 ==> w == v.(defaults := v.defaults + e0')
  {
    AddsChain(v, u, w, e0, e1, all);
    RecordedChain(t0, t1, t2, v, u, e0, e1, all);
  }

  /** One more object type: first its forward, then its reverse entries. */
  lemma BothWaysStep(db: string, schemas: set<string>, defs: seq<PrivilegeDef>, j: nat, role: string, user: string)
    requires j < |defs|
    ensures var done, d := BothWays(db, schemas, defs[..j], role, user), [defs[j]];
            var fwd, rev := Direction(db, schemas, d, role, user), Direction(db, schemas, d, user, role);
            var all := BothWays(db, schemas, defs, role, user);
            && BothWays(db, schemas, defs[..j + 1], role, user) == done + fwd + rev
            && done <= all && fwd <= all && rev <= all && done + fwd <= all
  {
    assert defs[..j + 1] == defs[..j] + [defs[j]];
    assert defs == defs[..j + 1] + defs[j + 1..];
    DirectionSnoc(db, schemas, defs[..j], defs[j], role, user);
    DirectionSnoc(db, schemas, defs[..j], defs[j], user, role);
  }

  /** One more schema. */
  lemma BothWaysSchema(db: string, x: set<string>, sc: string, all: set<string>, defs: seq<PrivilegeDef>, role: string,
                       user: string)
    requires x + {sc} <= all
    ensures BothWays(db, x + {sc}, defs, role, user)
         == BothWays(db, x, defs, role, user) + BothWays(db, {sc}, defs, role, user)
    ensures BothWays(db, x + {sc}, defs, role, user) <= BothWays(db, all, defs, role, user)
  {
    DirectionUnion(db, x, {sc}, defs, role, user);
    DirectionUnion(db, x, {sc}, defs, user, role);
    DirectionUnion(db, x + {sc}, all, defs, role, user);
    DirectionUnion(db, x + {sc}, all, defs, user, role);
    assert x + {sc} + all == all;
  }

  lemma BothWaysOne(db: string, schemas: set<string>, defs: seq<PrivilegeDef>, j: nat, role: string, user: string)
    requires j < |defs|
    ensures var done, all := BothWays(db, schemas, defs[..j], role, user), BothWays(db, schemas, defs, role, user);
            var one := BothWays(db, schemas, [defs[j]], role, user);
            BothWays(db, schemas, defs[..j + 1], role, user) == done + one && done + one <= all
  {
    BothWaysStep(db, schemas, defs, j, role, user);
  }

  /** One object type of one schema, forward then reverse. */
  method SetPair(a: Adapter, db: string, sc: string, d: PrivilegeDef, role: string, user: string) returns (ok: bool)
    requires WellFormed(d) && db != "" && role != "" && user != ""
    modifies a
    ensures AddsOutcome(old(a.server), a.server, BothWays(db, {sc}, [d], role, user),
                        Accepts(old(a.server), db, {sc}, [d], role, user), ok, old(a.faults) == [])
    ensures RecordedAdds(old(a.seen), a.seen, old(a.server), BothWays(db, {sc}, [d], role, user))
    ensures old(a.faults) == [] ==> a.faults == []
  {
    ghost var fwd, rev := Direction(db, {sc}, [d], role, user), Direction(db, {sc}, [d], user, role);
    ok := SetStandard(a, db, sc, role, d, user);
    if !ok {
      return;
    }
    ghost var u, t := a.server, a.seen;
    ok := SetStandard(a, db, sc, user, d, role);
    AddsChain(old(a.server), u, a.server, fwd, rev, fwd + rev);
    RecordedChain(old(a.seen), t, a.seen, old(a.server), u, fwd, rev, fwd + rev);
  }

  lemma DefsTakenStep(defs: seq<PrivilegeDef>, j: nat, v: Server)
    requires j < |defs|
    ensures DefsTaken(defs[..j + 1], v) <==> DefsTaken(defs[..j], v) && DefsTaken([defs[j]], v)
    ensures DefsTaken(defs, v) ==> DefsTaken([defs[j]], v)
  {
    assert defs[..j + 1] == defs[..j] + [defs[j]];
    assert defs[j] in defs;
  }

  /** Acceptance of a list of definitions, one by one, while only default privileges change. */
  lemma AcceptsStep(v: Server, u: Server, db: string, schemas: set<string>, defs: seq<PrivilegeDef>, j: nat,
                    role: string, user: string)
    requires j < |defs| && u == v.(defaults := u.defaults)
    requires j > 0 ==> Accepts(v, db, schemas, defs[..j], role, user)
    ensures Accepts(u, db, schemas, [defs[j]], role, user) <==> Accepts(v, db, schemas, defs[..j + 1], role, user)
    ensures Accepts(v, db, schemas, defs, role, user) ==> Accepts(u, db, schemas, [defs[j]], role, user)
  {
    DefsTakenStep(defs, j, v);
    DefsTakenSame([defs[j]], v, u);
  }

  lemma DefsTakenSame(defs: seq<PrivilegeDef>, v: Server, w: Server)
    requires w.refused == v.refused
    ensures DefsTaken(defs, w) <==> DefsTaken(defs, v)
  {
    assert forall d :: d in defs ==> (DefTaken(d, w) <==> DefTaken(d, v));
  }

  /** Every object type of one schema. */
  method SetSchemaDefaults(a: Adapter, db: string, sc: string, defs: seq<PrivilegeDef>, role: string, user: string)
    returns (ok: bool)
    requires defs != [] && AllWellFormed(defs) && db != "" && role != "" && user != ""
    modifies a
    ensures AddsOutcome(old(a.server), a.server, BothWays(db, {sc}, defs, role, user),
                        Accepts(old(a.server), db, {sc}, defs, role, user), ok, old(a.faults) == [])
    ensures RecordedAdds(old(a.seen), a.seen, old(a.server), BothWays(db, {sc}, defs, role, user))
    ensures old(a.faults) == [] ==> a.faults == []
  {
    assert defs[..|defs|] == defs;
    var j := 0;
    while j < |defs|
      invariant 0 <= j <= |defs|
      invariant a.server == old(a.server).(defaults := old(a.server).defaults
                                                       + BothWays(db, {sc}, defs[..j], role, user))
      invariant RecordedAdds(old(a.seen), a.seen, old(a.server), BothWays(db, {sc}, defs, role, user))
      invariant old(a.faults) == [] ==> a.faults == []
      invariant j > 0 ==> Accepts(old(a.server), db, {sc}, defs[..j], role, user)
    {
      ghost var u, t := a.server, a.seen;
      WellFormedAt(defs, j);
      AcceptsStep(old(a.server), u, db, {sc}, defs, j, role, user);
      ok := SetPair(a, db, sc, defs[j], role, user);
      BothWaysOne(db, {sc}, defs, j, role, user);
      Chain(old(a.server), u, a.server, old(a.seen), t, a.seen,
            BothWays(db, {sc}, defs[..j], role, user), BothWays(db, {sc}, [defs[j]], role, user),
            BothWays(db, {sc}, defs[..j + 1], role, user), BothWays(db, {sc}, defs, role, user));
      if !ok {
        return;
      }
      j := j + 1;
    }
    ok := true;
  }

  /**
   Bidirectional default privileges on public and every configured schema; `order` is the order in
   which the runtime happens to iterate the schema set.
   */
  method SetDefaults(a: Adapter, db: string, names: seq<string>, order: seq<string>, defs: seq<PrivilegeDef>,
                     role: string, user: string)
    returns (ok: bool)
    requires defs != [] && AllWellFormed(defs) && db != "" && role != "" && user != ""
    requires AsSet(order) == Covered(AsSet(names))
    modifies a
    ensures AddsOutcome(old(a.server), a.server, BothWays(db, Covered(AsSet(names)), defs, role, user),
                        Accepts(old(a.server), db, Covered(AsSet(names)), defs, role, user), ok, old(a.faults) == [])
    ensures RecordedAdds(old(a.seen), a.seen, old(a.server), BothWays(db, Covered(AsSet(names)), defs, role, user))
    ensures old(a.faults) == [] ==> a.faults == []
  {
    ghost var all := Covered(AsSet(names));
    ghost var done: set<string> := {};
    var i := 0;
    while i < |order|
      invariant 0 <= i <= |order|
      invariant done <= all && (forall k :: 0 <= k < i ==> order[k] in done) && (i == 0 ==> done == {})
      invariant a.server == old(a.server).(defaults := old(a.server).defaults + BothWays(db, done, defs, role, user))
      invariant RecordedAdds(old(a.seen), a.seen, old(a.server), BothWays(db, all, defs, role, user))
      invariant old(a.faults) == [] ==> a.faults == []
      invariant i > 0 ==> Accepts(old(a.server), db, done, defs, role, user)
    {
      ghost var u, t, more := a.server, a.seen, done + {order[i]};
      assert order[i] in order && more <= all && forall k :: 0 <= k < i + 1 ==> order[k] in more;
      ok := SetSchemaDefaults(a, db, order[i], defs, role, user);
      BothWaysSchema(db, done, order[i], all, defs, role, user);
      Chain(old(a.server), u, a.server, old(a.seen), t, a.seen,
            BothWays(db, done, defs, role, user), BothWays(db, {order[i]}, defs, role, user),
            BothWays(db, more, defs, role, user), BothWays(db, all, defs, role, user));
      if !ok {
        return;
      }
      done := more;
      i := i + 1;
    }
    assert forall n :: n in all ==> n in order;
    assert done == all;
    ok := true;
  }

  // ----- Updating the database --------------------------------------------------------------

  predicate SchemaAccepted(p: Plan, s: SchemaSpec, v: Server) {
    Legal(CreateSchema(p.db, s.name, s.owner), v)
  }

  predicate SchemasAccepted(p: Plan, v: Server) {
    forall s :: s in p.schemas ==> SchemaAccepted(p, s, v)
  }

  /** CREATE SCHEMA IF NOT EXISTS for every configured schema. */
  method CreateSchemas(a: Adapter, p: Plan) returns (ok: bool)
    modifies a
    ensures Between(old(a.server), a.server, Schemas(p, |p.schemas|, old(a.server)))
    ensures Recorded(old(a.seen), a.seen, old(a.server), Schemas(p, |p.schemas|, old(a.server)))
    ensures ok ==> a.server == Schemas(p, |p.schemas|, old(a.server)) && SchemasAccepted(p, old(a.server))
    ensures old(a.faults) == [] ==> a.faults == [] && ok == SchemasAccepted(p, old(a.server))
  {
    ghost var v := a.server;
    SchemasBetween(p, |p.schemas|, v);
    var i := 0;
    while i < |p.schemas|
      invariant 0 <= i <= |p.schemas|
      invariant a.server == Schemas(p, i, v)
      invariant Recorded(old(a.seen), a.seen, v, Schemas(p, |p.schemas|, v))
      invariant old(a.faults) == [] ==> a.faults == []
      invariant forall j :: 0 <= j < i ==> SchemaAccepted(p, p.schemas[j], v)
    {
      SchemaStep(p, i, v, NextFault(a.faults));
      assert p.schemas[i] in p.schemas;
      ok := a.Exec(CreateSchema(p.db, p.schemas[i].name, p.schemas[i].owner));
      if !ok {
        return;
      }
      i := i + 1;
    }
    ok := true;
  }

  predicate SpecDefaultAccepted(p: Plan, d: DefaultSpec, v: Server) {
    && Listed(d.objectType, UPDATE_OBJECT_TYPES) && ValidPrivileges(d.privileges, PgDialect)
    && Legal(AlterDefault(p.db, d.schema, d.role, d.objectType, Words(d.privileges), d.role, p.role), v)
  }

  lemma SpecDefaultStable(p: Plan, d: DefaultSpec, v: Server, more: set<DefaultEntry>)
    ensures SpecDefaultAccepted(p, d, v.(defaults := more)) <==> SpecDefaultAccepted(p, d, v)
  {}

  lemma SpecEntriesSnoc(db: string, specs: seq<DefaultSpec>, d: DefaultSpec)
    ensures SpecEntries(db, specs + [d])
         == SpecEntries(db, specs) + DefaultEntries(db, d.schema, d.role, d.objectType, Words(d.privileges), d.role)
  {}

  lemma SpecEntriesStep(db: string, specs: seq<DefaultSpec>, i: nat)
    requires i < |specs|
    ensures var d, all := specs[i], SpecEntries(db, specs);
            var e0, e1 := SpecEntries(db, specs[..i]),
                          DefaultEntries(db, d.schema, d.role, d.objectType, Words(d.privileges), d.role);
            SpecEntries(db, specs[..i + 1]) == e0 + e1 && e0 + e1 <= all
  {
    assert specs[..i + 1] == specs[..i] + [specs[i]];
    SpecEntriesSnoc(db, specs[..i], specs[i]);
    assert specs == specs[..i + 1] + specs[i + 1..];
  }

  /** One default privilege of the spec, set while acting as the owner role. */
  method SetSpecDefault(a: Adapter, p: Plan, d: DefaultSpec) returns (ok: bool)
    modifies a
    ensures AddsOutcome(old(a.server), a.server,
                        DefaultEntries(p.db, d.schema, d.role, d.objectType, Words(d.privileges), d.role),
                        SpecDefaultAccepted(p, d, old(a.server)), ok, old(a.faults) == [])
    ensures RecordedAdds(old(a.seen), a.seen, old(a.server),
                         DefaultEntries(p.db, d.schema, d.role, d.objectType, Words(d.privileges), d.role))
    ensures old(a.faults) == [] ==> a.faults == []
  {
    if !Listed(d.objectType, UPDATE_OBJECT_TYPES) || !ValidPrivileges(d.privileges, PgDialect) {
      return false;
    }
    ok := a.Exec(AlterDefault(p.db, d.schema, d.role, d.objectType, Words(d.privileges), d.role, p.role));
  }

  predicate SpecsAccepted(p: Plan, n: nat, v: Server)
    requires n <= |p.defaults|
  {
    forall j :: 0 <= j < n ==> SpecDefaultAccepted(p, p.defaults[j], v)
  }

  lemma SpecsAcceptedSnoc(p: Plan, n: nat, v: Server)
    requires n < |p.defaults| && SpecsAccepted(p, n, v) && SpecDefaultAccepted(p, p.defaults[n], v)
    ensures SpecsAccepted(p, n + 1, v)
  {}

  /** The default privileges listed in the spec. */
  method SetSpecDefaults(a: Adapter, p: Plan) returns (ok: bool)
    modifies a
    ensures AddsOutcome(old(a.server), a.server, SpecEntries(p.db, p.defaults),
                        SpecsAccepted(p, |p.defaults|, old(a.server)), ok, old(a.faults) == [])
    ensures RecordedAdds(old(a.seen), a.seen, old(a.server), SpecEntries(p.db, p.defaults))
    ensures old(a.faults) == [] ==> a.faults == []
  {
    var i := 0;
    while i < |p.defaults|
      invariant 0 <= i <= |p.defaults|
      invariant a.server == old(a.server).(defaults := old(a.server).defaults + SpecEntries(p.db, p.defaults[..i]))
      invariant RecordedAdds(old(a.seen), a.seen, old(a.server), SpecEntries(p.db, p.defaults))
      invariant old(a.faults) == [] ==> a.faults == []
      invariant SpecsAccepted(p, i, old(a.server))
    {
      ghost var u, t, d := a.server, a.seen, p.defaults[i];
      ok := SetSpecDefault(a, p, p.defaults[i]);
      SpecEntriesStep(p.db, p.defaults, i);
      Chain(old(a.server), u, a.server, old(a.seen), t, a.seen, SpecEntries(p.db, p.defaults[..i]),
            DefaultEntries(p.db, d.schema, d.role, d.objectType, Words(d.privileges), d.role),
            SpecEntries(p.db, p.defaults[..i + 1]), SpecEntries(p.db, p.defaults));
      assert u == old(a.server).(defaults := u.defaults);
      SpecDefaultStable(p, d, old(a.server), u.defaults);
      if !ok {
        return;
      }
      SpecsAcceptedSnoc(p, i, old(a.server));
      i := i + 1;
    }
    assert p.defaults[..i] == p.defaults;
    ok := true;
  }

  lemma RecordedFromAdds(before: set<Server>, seen: set<Server>, v: Server, more: set<DefaultEntry>)
    requires RecordedAdds(before, seen, v, more)
    ensures Recorded(before, seen, v, v.(defaults := v.defaults + more))
  {
    forall x | x in seen && x !in before ensures Between(v, x, v.(defaults := v.defaults + more)) {
      assert Adds(v, x, more);
    }
  }

  /** States between two states that are themselves between `v` and `t` are between `v` and `t`. */
  lemma RecordedLift(before: set<Server>, seen: set<Server>, v: Server, x: Server, y: Server, t: Server)
    requires Recorded(before, seen, x, y) && Between(v, x, t) && Between(v, y, t)
    ensures Recorded(before, seen, v, t)
  {
    forall z | z in seen && z !in before ensures Between(v, z, t) {
      BetweenCompose(v, x, z, y, t);
    }
  }

  /** The states between the two halves of the last step and at its end. */
  lemma UpdateGoal(p: Plan, v: Server)
    ensures var u, t := Schemas(p, |p.schemas|, v), StepGoal(p, UpdateDatabase, v);
            && t == u.(defaults := u.defaults + SpecEntries(p.db, p.defaults))
            && Between(v, v, t) && Between(v, u, t) && Between(v, t, t)
  {
    assert p.schemas[..|p.schemas|] == p.schemas;
    WithSchemasKeys(v.schemas, p.db, p.schemas, v.admin);
  }

  lemma SpecDefaultExactly(p: Plan, d: DefaultSpec, v: Server)
    ensures SpecDefaultAccepted(p, d, Schemas(p, |p.schemas|, v)) <==> DefaultSpecReady(p, d, v)
  {
    assert p.schemas[..|p.schemas|] == p.schemas;
    WithSchemasKeys(v.schemas, p.db, p.schemas, v.admin);
  }

  lemma UpdateReady(p: Plan, v: Server)
    ensures StepReady(p, UpdateDatabase, v) <==>
            SchemasAccepted(p, v) && SpecsAccepted(p, |p.defaults|, Schemas(p, |p.schemas|, v))
  {
    forall d | d in p.defaults
      ensures SpecDefaultAccepted(p, d, Schemas(p, |p.schemas|, v)) <==> DefaultSpecReady(p, d, v)
    {
      SpecDefaultExactly(p, d, v);
    }
  }

  method Update(a: Adapter, p: Plan) returns (ok: bool)
    modifies a
    ensures StepOutcome(p, UpdateDatabase, old(a.server), a.server, ok, old(a.faults) == [])
    ensures Recorded(old(a.seen), a.seen, old(a.server), StepGoal(p, UpdateDatabase, old(a.server)))
    ensures old(a.faults) == [] ==> a.faults == []
  {
    ghost var v, t := a.server, StepGoal(p, UpdateDatabase, a.server);
    ghost var u := Schemas(p, |p.schemas|, v);
    UpdateGoal(p, v);
    UpdateReady(p, v);
    ok := CreateSchemas(a, p);
    BetweenCompose(v, v, a.server, u, t);
    RecordedLift(old(a.seen), a.seen, v, v, u, t);
    if !ok {
      return;
    }
    ghost var t1 := a.seen;
    ok := SetSpecDefaults(a, p);
    RecordedFromAdds(t1, a.seen, u, SpecEntries(p.db, p.defaults));
    RecordedLift(t1, a.seen, v, u, t, t);
    assert Between(u, a.server, t);
    BetweenCompose(v, u, a.server, t, t);
  }

  // ----- The pipeline --------------------------------------------------------------------------

  /**
   What one run leaves behind, whatever fails on the way: nothing is lost, nothing foreign is added,
   the plan is as completable as before, and success means the goal exactly.
   */
  ghost predicate RunOutcome(p: Plan, v: Server, w: Server, ok: bool) {
    && Between(v, w, Goal(p, v))
    && (Completable(p, w) <==> Completable(p, v))
    && (ok ==> w == Goal(p, v) && Completable(p, v))
  }

  /** What holds at every moment of a run that started in `v`. */
  ghost predicate Safe(p: Plan, v: Server, x: Server) {
    && Between(v, x, Goal(p, v))
    && (p.db in x.databases && p.db !in v.databases ==> p.role in x.roles)
  }

  ghost predicate SeenSafe(p: Plan, v: Server, before: set<Server>, seen: set<Server>) {
    forall x :: x in seen ==> x in before || Safe(p, v, x)
  }

  lemma ReadySoFarSnoc(p: Plan, k: nat, v: Server)
    requires k < |Steps(p)| && ReadySoFar(p, k, v) && StepReady(p, Steps(p)[k], Partial(p, k, v))
    ensures ReadySoFar(p, k + 1, v)
  {
    assert ReadyAt(p, k, v);
  }

  lemma FailureOutcome(p: Plan, v: Server, k: nat, w: Server, clean: bool)
    requires k < |Steps(p)| && ReadySoFar(p, k, v)
    requires StepOutcome(p, Steps(p)[k], Partial(p, k, v), w, false, clean)
    ensures RunOutcome(p, v, w, false) && (clean ==> !Completable(p, v))
  {
    PartialBetween(p, k, v);
    PartialBetween(p, k + 1, v);
    BetweenCompose(v, Partial(p, k, v), w, Partial(p, k + 1, v), Goal(p, v));
    CompletableStable(p, v, k, w);
    if clean {
      NotReadyNotCompletable(p, v, k);
    }
  }

  lemma NotReadyNotCompletable(p: Plan, v: Server, k: nat)
    requires k < |Steps(p)| && !StepReady(p, Steps(p)[k], Partial(p, k, v))
    ensures !Completable(p, v)
  {
    if Completable(p, v) {
      CompletableImpliesReady(p, v, k);
    }
  }

  lemma SuccessOutcome(p: Plan, v: Server)
    requires ReadySoFar(p, |Steps(p)|, v)
    ensures RunOutcome(p, v, Partial(p, |Steps(p)|, v), true)
  {
    var n := |Steps(p)|;
    PartialBetween(p, n, v);
    PartialBetween(p, n - 1, v);
    ReadyImpliesCompletable(p, v);
    assert Between(Partial(p, n - 1, v), Partial(p, n, v), Partial(p, n, v)) by {
      UpdateGoalBetween(p, Partial(p, n - 1, v));
    }
    CompletableStable(p, v, n - 1, Partial(p, n, v));
  }

  lemma UpdateGoalBetween(p: Plan, v: Server)
    ensures Between(v, StepGoal(p, UpdateDatabase, v), StepGoal(p, UpdateDatabase, v))
  {
    WithSchemasKeys(v.schemas, p.db, p.schemas, v.admin);
  }

  lemma DefaultsGoal(p: Plan, v: Server, w: Server, seen: set<Server>, seen': set<Server>, ok: bool, clean: bool)
    requires AddsOutcome(v, w, BothWays(p.db, Covered(Names(p.schemas)), p.standard, p.role, p.user),
                         Accepts(v, p.db, Covered(Names(p.schemas)), p.standard, p.role, p.user), ok, clean)
    requires RecordedAdds(seen, seen', v, BothWays(p.db, Covered(Names(p.schemas)), p.standard, p.role, p.user))
    ensures StepOutcome(p, SetDefaultPrivileges, v, w, ok, clean)
    ensures Recorded(seen, seen', v, StepGoal(p, SetDefaultPrivileges, v))
  {
    RecordedFromAdds(seen, seen', v, BothWays(p.db, Covered(Names(p.schemas)), p.standard, p.role, p.user));
  }

  class ProvisionPlan {
    const p: Plan
    const adapter: Adapter
    const order: seq<string>              // iteration order of the schema set, chosen by the runtime
    var createResult: Option<CreateResult>

    constructor (p: Plan, adapter: Adapter, order: seq<string>)
      ensures this.p == p && this.adapter == adapter && this.order == order && createResult == None
    {
      this.p, this.adapter, this.order, createResult := p, adapter, order, None;
    }

    ghost predicate Valid() {
      && p.role != "" && p.user != "" && p.standard != [] && AllWellFormed(p.standard)
      && AsSet(order) == Covered(Names(p.schemas))
    }

    method Execute(step: Step) returns (ok: bool)
      requires Valid() && (step == SetDefaultPrivileges ==> p.db != "")
      modifies this, adapter
      ensures StepOutcome(p, step, old(adapter.server), adapter.server, ok, old(adapter.faults) == [])
      ensures Recorded(old(adapter.seen), adapter.seen, old(adapter.server), StepGoal(p, step, old(adapter.server)))
      ensures old(adapter.faults) == [] ==> adapter.faults == []
      ensures createResult == if step == EnsureDatabase && ok
                              then Some(if p.db in old(adapter.server.databases) then AlreadyExists else Created)
                              else old(createResult)
    {
      match step
      case CreateOwnerRole => ok := EnsureOwnerRole(adapter, p);
      case EnsureDatabase =>
        var result;
        ok, result := CreateOnly(adapter, p);
        if ok {
          createResult := result;
        }
      case VerifyAccess => ok := VerifyDatabaseAccess(adapter, p);
      case TransferOwnership => ok := Transfer(adapter, p);
      case CreateAppUser => ok := EnsureOwnerUser(adapter, p);
      case SetDefaultPrivileges =>
        var names := SchemaNames(p.schemas);
        ok := SetDefaults(adapter, p.db, names, order, p.standard, p.role, p.user);
        DefaultsGoal(p, old(adapter.server), adapter.server, old(adapter.seen), adapter.seen, ok,
                     old(adapter.faults) == []);
      case UpdateDatabase => ok := Update(adapter, p);
    }

    /** Runs the steps in order and stops at the first failure. */
    method Run() returns (completed: nat, ok: bool)
      requires Valid() && createResult == None
      modifies this, adapter
      ensures RunOutcome(p, old(adapter.server), adapter.server, ok)
      ensures old(adapter.faults) == [] ==> ok == Completable(p, old(adapter.server))
      ensures SeenSafe(p, old(adapter.server), old(adapter.seen), adapter.seen)
      ensures completed <= |Steps(p)| && (ok <==> completed == |Steps(p)|)
      ensures ReadySoFar(p, completed, old(adapter.server))
      ensures !ok ==> Between(Partial(p, completed, old(adapter.server)), adapter.server,
                              Partial(p, completed + 1, old(adapter.server)))
      ensures createResult == if completed < 2 then None
                              else Some(if p.db in old(adapter.server.databases) then AlreadyExists else Created)
    {
      ghost var v := adapter.server;
      completed := 0;
      while completed < |Steps(p)|
        invariant completed <= |Steps(p)|
        invariant adapter.server == Partial(p, completed, v)
        invariant old(adapter.faults) == [] ==> adapter.faults == []
        invariant SeenSafe(p, v, old(adapter.seen), adapter.seen)
        invariant ReadySoFar(p, completed, v)
        invariant createResult == if completed < 2 then None
                                  else Some(if p.db in v.databases then AlreadyExists else Created)
      {
        ghost var seen, quiet := adapter.seen, adapter.faults == [];
        StepFacts(p, completed, v);
        ok := Execute(Steps(p)[completed]);
        RunStep(p, completed, v, adapter.server, old(adapter.seen), seen, adapter.seen, ok, quiet);
        if !ok {
          return;
        }
        completed := completed + 1;
      }
      SuccessOutcome(p, v);
      ok := true;
    }
  }

  method SchemaNames(schemas: seq<SchemaSpec>) returns (names: seq<string>)
    ensures AsSet(names) == Names(schemas)
  {
    names := [];
    for i := 0 to |schemas|
      invariant |names| == i && forall j :: 0 <= j < i ==> names[j] == schemas[j].name
    {
      names := names + [schemas[i].name];
    }
    assert forall s :: s in schemas ==> s.name in names;
    assert forall n :: n in names ==> n in Names(schemas);
  }

  lemma StepFacts(p: Plan, k: nat, v: Server)
    requires k < |Steps(p)| && ReadySoFar(p, k, v)
    ensures Steps(p)[k] == SetDefaultPrivileges ==> p.db != ""
    ensures (Steps(p)[k] == EnsureDatabase) <==> k == 1
    ensures k == 1 ==> Partial(p, k, v).databases == v.databases
  {
    StepAt(p, k);
    PartialShape(p, k, v);
    if k == 5 {
      assert ReadyAt(p, 1, v);
    }
  }

  /** One turn of the pipeline loop: the next prefix is done, or the run has failed safely. */
  lemma RunStep(p: Plan, k: nat, v: Server, w: Server, before: set<Server>, seen: set<Server>, seen': set<Server>,
                ok: bool, clean: bool)
    requires k < |Steps(p)| && ReadySoFar(p, k, v)
    requires SeenSafe(p, v, before, seen)
    requires Recorded(seen, seen', Partial(p, k, v), StepGoal(p, Steps(p)[k], Partial(p, k, v)))
    requires StepOutcome(p, Steps(p)[k], Partial(p, k, v), w, ok, clean)
    ensures SeenSafe(p, v, before, seen')
    ensures ok ==> ReadySoFar(p, k + 1, v) && w == Partial(p, k + 1, v)
    ensures !ok ==> RunOutcome(p, v, w, false) && (clean ==> !Completable(p, v))
    ensures !ok ==> Between(Partial(p, k, v), w, Partial(p, k + 1, v))
  {
    SafeStep(p, k, v);
    if ok {
      ReadySoFarSnoc(p, k, v);
    } else {
      FailureOutcome(p, v, k, w, clean);
    }
  }

  lemma SafeStep(p: Plan, k: nat, v: Server)
    requires k < |Steps(p)|
    ensures forall x :: Between(Partial(p, k, v), x, Partial(p, k + 1, v)) ==> Safe(p, v, x)
  {
    PartialBetween(p, k, v);
    PartialBetween(p, k + 1, v);
    PartialShape(p, k, v);
    PartialShape(p, k + 1, v);
    forall x | Between(Partial(p, k, v), x, Partial(p, k + 1, v)) ensures Safe(p, v, x) {
      BetweenCompose(v, Partial(p, k, v), x, Partial(p, k + 1, v), Goal(p, v));
    }
  }

  // ----- The request ---------------------------------------------------------------------------

  datatype OwnershipConfig = OwnershipConfig(auto: bool, roleName: string, userName: string, setDefaults: bool)

  class DatabaseSpec {
    const name: string
    const ownership: Option<OwnershipConfig>
    const schemas: array<SchemaSpec>
    const defaults: seq<DefaultSpec>
    var owner: string

    constructor (name: string, ownership: Option<OwnershipConfig>, schemas: array<SchemaSpec>,
                 defaults: seq<DefaultSpec>, owner: string)
      ensures this.name == name && this.ownership == ownership && this.schemas == schemas
      ensures this.defaults == defaults && this.owner == owner
    {
      this.name, this.ownership, this.schemas, this.defaults, this.owner := name, ownership, schemas, defaults, owner;
    }
  }

  /** Schemas without an owner of their own belong to the owner role. */
  function FillOwners(schemas: seq<SchemaSpec>, role: string): (r: seq<SchemaSpec>)
    ensures |r| == |schemas| && Names(r) == Names(schemas)
    ensures forall i :: 0 <= i < |schemas| ==>
              r[i] == if schemas[i].owner == "" then schemas[i].(owner := role) else schemas[i]
  {
    var r := seq(|schemas|, i requires 0 <= i < |schemas| =>
      if schemas[i].owner == "" then schemas[i].(owner := role) else schemas[i]);
    assert forall i :: 0 <= i < |schemas| ==> r[i].name == schemas[i].name;
    assert forall n :: n in Names(schemas) ==> n in Names(r) by {
      forall n | n in Names(schemas) ensures n in Names(r) {
        var i :| 0 <= i < |schemas| && schemas[i].name == n;
        assert r[i] in r;
      }
    }
    r
  }

  function PlanFor(name: string, cfg: OwnershipConfig, schemas: seq<SchemaSpec>, defaults: seq<DefaultSpec>): Plan {
    var role := Derive.RoleName(cfg.roleName, name);
    Plan(name, role, Derive.UserName(cfg.userName, name), FillOwners(schemas, role), cfg.setDefaults, StandardDefs(),
         defaults)
  }

  lemma PlanForNames(name: string, cfg: OwnershipConfig, schemas: seq<SchemaSpec>, defaults: seq<DefaultSpec>)
    ensures PlanFor(name, cfg, schemas, defaults).role != "" && PlanFor(name, cfg, schemas, defaults).user != ""
  {
    Derive.DerivedNamesDiffer(name);
  }

  /** Prepares the plan; the spec's missing schema owners and its owner are overwritten in place. */
  method NewPlan(spec: DatabaseSpec) returns (p: Plan)
    requires spec.ownership.Some?
    modifies spec`owner, spec.schemas
    ensures p == PlanFor(spec.name, spec.ownership.value, old(spec.schemas[..]), spec.defaults)
    ensures spec.owner == p.role && spec.schemas[..] == p.schemas
  {
    var cfg := spec.ownership.value;
    var role := Derive.RoleName(cfg.roleName, spec.name);
    var user := Derive.UserName(cfg.userName, spec.name);
    for i := 0 to spec.schemas.Length
      invariant forall j :: 0 <= j < i ==> spec.schemas[j] == FillOwners(old(spec.schemas[..]), role)[j]
      invariant forall j :: i <= j < spec.schemas.Length ==> spec.schemas[j] == old(spec.schemas[j])
    {
      if spec.schemas[i].owner == "" {
        spec.schemas[i] := spec.schemas[i].(owner := role);
      }
    }
    spec.owner := role;
    assert spec.schemas[..] == FillOwners(old(spec.schemas[..]), role);
    p := Plan(spec.name, role, user, spec.schemas[..], cfg.setDefaults, StandardDefs(), spec.defaults);
  }

  // ----- What a completed request promises -----------------------------------------------------------

  /** `name` is the configured one, or else `text`, cut after 63 characters. */
  predicate NamedAs(name: string, configured: string, text: string) {
    if configured != "" then name == configured
    else name <= text && (|text| <= 63 ==> name == text) && (|text| > 63 ==> |name| == 63)
  }

  /** The privileges that come by default on each type of object. */
  predicate ComesByDefault(objectType: string, privilege: string) {
    match objectType
    case "tables" => privilege in {"SELECT", "INSERT", "UPDATE", "DELETE"}
    case "sequences" => privilege in {"USAGE", "SELECT"}
    case "functions" => privilege == "EXECUTE"
    case _ => false
  }

  /** A default privilege in either direction between role and user, on public or a schema of the spec. */
  ghost predicate BetweenOwners(e: DefaultEntry, name: string, schemas: seq<SchemaSpec>, role: string, user: string) {
    && e.db == name && (e.schema == "public" || exists s :: s in schemas && s.name == e.schema)
    && ((e.creator == role && e.grantee == user) || (e.creator == user && e.grantee == role))
    && ComesByDefault(e.objectType, e.privilege)
  }

  /** A default privilege that the spec lists, which its role grants to itself. */
  ghost predicate ListedDefault(e: DefaultEntry, name: string, defaults: seq<DefaultSpec>) {
    exists d, p :: d in defaults && p in d.privileges
                   && e == DefaultEntry(name, d.schema, d.role, d.objectType, d.role, ToUpper(TrimSpace(p)))
  }

  /** Roles, ownership and membership after a completed request. */
  ghost predicate OwnersProvided(name: string, role: string, user: string, v: Server, w: Server) {
    && w.roles.Keys == v.roles.Keys + {role, user}
    && (forall r :: r in v.roles ==> w.roles[r] == v.roles[r])
    && (role !in v.roles ==> !w.roles[role]) && (user !in v.roles ==> w.roles[user])
    && w.memberships == v.memberships + {(user, role)}
    && w.databases == v.databases[name := role]
  }

  /** Entry `i` is the first of its name, and that schema is neither there nor comes with a new database. */
  ghost predicate NewSchema(name: string, schemas: seq<SchemaSpec>, i: nat, v: Server) {
    && i < |schemas| && (name, schemas[i].name) !in v.schemas
    && (name in v.databases || schemas[i].name != "public")
    && (forall j :: 0 <= j < i ==> schemas[j].name != schemas[i].name)
  }

  /** Schemas after a completed request: old ones keep their owner, new ones have the spec's or the role. */
  ghost predicate SchemasProvided(name: string, schemas: seq<SchemaSpec>, role: string, v: Server, w: Server) {
    && (forall k :: k in v.schemas ==> k in w.schemas && w.schemas[k] == v.schemas[k])
    && (forall s :: s in schemas ==> (name, s.name) in w.schemas)
    && (forall i: nat :: NewSchema(name, schemas, i, v) ==>
          && (name, schemas[i].name) in w.schemas
          && w.schemas[(name, schemas[i].name)] == if schemas[i].owner == "" then role else schemas[i].owner)
  }

  /** Default privileges after a completed request: no more and no less. */
  ghost predicate DefaultsProvided(name: string, setDefaults: bool, schemas: seq<SchemaSpec>,
                                   defaults: seq<DefaultSpec>, role: string, user: string, v: Server, w: Server) {
    forall e :: e in w.defaults <==>
                || e in v.defaults || (setDefaults && BetweenOwners(e, name, schemas, role, user))
                || ListedDefault(e, name, defaults)
  }

  lemma PlanNames(name: string, cfg: OwnershipConfig, schemas: seq<SchemaSpec>, defaults: seq<DefaultSpec>)
    ensures var p := PlanFor(name, cfg, schemas, defaults);
            && NamedAs(p.role, cfg.roleName, "db_" + name + "_owner")
            && NamedAs(p.user, cfg.userName, "db_" + name + "_app")
  {}

  lemma GoalProvidesOwners(p: Plan, v: Server)
    requires p.role != p.user
    ensures OwnersProvided(p.db, p.role, p.user, v, Goal(p, v))
  {}

  lemma GoalProvidesSchemas(name: string, schemas: seq<SchemaSpec>, p: Plan, v: Server)
    requires p.db == name && p.schemas == FillOwners(schemas, p.role) && p.role != ""
    ensures SchemasProvided(name, schemas, p.role, v, Goal(p, v))
  {
    var base := BaseSchemas(p, v);
    WithSchemasKeys(base, p.db, p.schemas, v.admin);
    forall s | s in schemas ensures (name, s.name) in Goal(p, v).schemas {
      assert s.name in Names(schemas) && Names(schemas) == Names(p.schemas);
    }
    forall i: nat | NewSchema(name, schemas, i, v)
      ensures (name, schemas[i].name) in Goal(p, v).schemas
      ensures Goal(p, v).schemas[(name, schemas[i].name)] == if schemas[i].owner == "" then p.role else schemas[i].owner
    {
      assert p.schemas[i].name == schemas[i].name && (name, schemas[i].name) !in base;
      assert forall j :: 0 <= j < i ==> p.schemas[j].name == schemas[j].name;
      WithSchemasFirst(base, name, p.schemas, v.admin, i);
    }
  }

  /** The standard definitions are what comes by default. */
  lemma StandardDefsLiterally(objectType: string, privilege: string)
    ensures (exists d :: d in StandardDefs() && d.objectType == objectType && privilege in d.privileges)
            <==> ComesByDefault(objectType, privilege)
  {
    var defs := StandardDefs();
    assert defs[0] in defs && defs[1] in defs && defs[2] in defs;
  }

  lemma StandardEntry(name: string, schemas: seq<SchemaSpec>, role: string, user: string, e: DefaultEntry)
    ensures e in BothWays(name, Covered(Names(schemas)), StandardDefs(), role, user)
            <==> BetweenOwners(e, name, schemas, role, user)
  {
    StandardDefsLiterally(e.objectType, e.privilege);
    assert e.schema in Names(schemas) <==> exists s :: s in schemas && s.name == e.schema;
    DirectionEntry(name, Covered(Names(schemas)), StandardDefs(), role, user, e);
    DirectionEntry(name, Covered(Names(schemas)), StandardDefs(), user, role, e);
  }

  lemma DirectionEntry(db: string, schemas: set<string>, defs: seq<PrivilegeDef>, creator: string, grantee: string,
                       e: DefaultEntry)
    ensures e in Direction(db, schemas, defs, creator, grantee)
            <==> && e.db == db && e.schema in schemas && e.creator == creator && e.grantee == grantee
                 && exists d :: d in defs && d.objectType == e.objectType && e.privilege in d.privileges
  {}

  lemma SpecEntry(name: string, defaults: seq<DefaultSpec>, e: DefaultEntry)
    ensures e in SpecEntries(name, defaults) <==> ListedDefault(e, name, defaults)
  {
    if e in SpecEntries(name, defaults) {
      var d :| d in defaults && e in DefaultEntries(name, d.schema, d.role, d.objectType, Words(d.privileges), d.role);
      var p :| p in d.privileges && Normalize(p) == e.privilege;
      assert e == DefaultEntry(name, d.schema, d.role, d.objectType, d.role, ToUpper(TrimSpace(p)));
    }
    if ListedDefault(e, name, defaults) {
      var d, p :| d in defaults && p in d.privileges
                  && e == DefaultEntry(name, d.schema, d.role, d.objectType, d.role, ToUpper(TrimSpace(p)));
      assert Normalize(p) in Words(d.privileges);
      assert e in DefaultEntries(name, d.schema, d.role, d.objectType, Words(d.privileges), d.role);
    }
  }

  lemma GoalProvidesDefaults(name: string, cfg: OwnershipConfig, schemas: seq<SchemaSpec>, defaults: seq<DefaultSpec>,
                             v: Server)
    ensures var p := PlanFor(name, cfg, schemas, defaults);
            DefaultsProvided(name, cfg.setDefaults, schemas, defaults, p.role, p.user, v, Goal(p, v))
  {
    var p := PlanFor(name, cfg, schemas, defaults);
    assert Names(p.schemas) == Names(schemas);
    forall e ensures e in BothWays(name, Covered(Names(p.schemas)), StandardDefs(), p.role, p.user)
                     <==> BetweenOwners(e, name, schemas, p.role, p.user)
             ensures e in SpecEntries(name, defaults) <==> ListedDefault(e, name, defaults)
    {
      StandardEntry(name, schemas, p.role, p.user, e);
      SpecEntry(name, defaults, e);
    }
  }

  /** Everything a completed request provides, in terms of the spec alone. */
  ghost predicate Provided(name: string, cfg: OwnershipConfig, schemas: seq<SchemaSpec>, defaults: seq<DefaultSpec>,
                           role: string, user: string, v: Server, w: Server) {
    && NamedAs(role, cfg.roleName, "db_" + name + "_owner") && NamedAs(user, cfg.userName, "db_" + name + "_app")
    && OwnersProvided(name, role, user, v, w) && SchemasProvided(name, schemas, role, v, w)
    && DefaultsProvided(name, cfg.setDefaults, schemas, defaults, role, user, v, w)
    && w.objects == v.objects && w.held == v.held && w.regrant == v.regrant
  }

  lemma GoalProvides(name: string, cfg: OwnershipConfig, schemas: seq<SchemaSpec>, defaults: seq<DefaultSpec>,
                     v: Server)
    ensures var p := PlanFor(name, cfg, schemas, defaults);
            Completable(p, v) ==> Provided(name, cfg, schemas, defaults, p.role, p.user, v, Goal(p, v))
  {
    var p := PlanFor(name, cfg, schemas, defaults);
    if Completable(p, v) {
      PlanForNames(name, cfg, schemas, defaults);
      PlanNames(name, cfg, schemas, defaults);
      GoalProvidesOwners(p, v);
      GoalProvidesSchemas(name, schemas, p, v);
      GoalProvidesDefaults(name, cfg, schemas, defaults, v);
    }
  }

  /** The whole request: a spec without auto-ownership is refused before anything is touched. */
  method CreateWithOwnership(spec: DatabaseSpec, a: Adapter, order: seq<string>)
    returns (created: Option<CreateResult>, owners: Option<(string, string)>, ok: bool)
    requires AsSet(order) == Covered(Names(spec.schemas[..]))
    modifies spec`owner, spec.schemas, a
    ensures spec.ownership.None? || !spec.ownership.value.auto ==>
              !ok && created == None && a.server == old(a.server) && spec.schemas[..] == old(spec.schemas[..])
    ensures spec.ownership.Some? && spec.ownership.value.auto ==>
              var p := PlanFor(spec.name, spec.ownership.value, old(spec.schemas[..]), spec.defaults);
              && RunOutcome(p, old(a.server), a.server, ok)
              && (old(a.faults) == [] ==> ok == Completable(p, old(a.server)))
              && SeenSafe(p, old(a.server), old(a.seen), a.seen)
    ensures ok <==> owners.Some?
    ensures ok ==> && spec.ownership.Some? && spec.ownership.value.auto && spec.owner == owners.value.0
                   && Provided(spec.name, spec.ownership.value, old(spec.schemas[..]), spec.defaults,
                               owners.value.0, owners.value.1, old(a.server), a.server)
    ensures ok ==> created == Some(if spec.name in old(a.server).databases then AlreadyExists else Created)
  {
    created, owners, ok := None, None, false;
    if spec.ownership.None? || !spec.ownership.value.auto {
      return;
    }
    ghost var schemas := spec.schemas[..];
    var p := NewPlan(spec);
    PlanForNames(spec.name, spec.ownership.value, schemas, spec.defaults);
    GoalProvides(spec.name, spec.ownership.value, schemas, spec.defaults, a.server);
    StandardDefsAllWellFormed();
    var plan := new ProvisionPlan(p, a, order);
    var completed;
    completed, ok := plan.Run();
    created := plan.createResult;
    if ok {
      owners := Some((p.role, p.user));
    }
  }

  // ----- Over whole histories ------------------------------------------------------------------

  /** States after successive runs of one plan; some or all of them may have failed. */
  ghost predicate Attempts(p: Plan, states: seq<Server>) {
    states != [] && forall i :: 0 <= i < |states| - 1 ==> RunOutcome(p, states[i], states[i + 1], false)
  }

  lemma AttemptsPrefix(p: Plan, states: seq<Server>)
    requires Attempts(p, states) && |states| > 1
    ensures Attempts(p, states[..|states| - 1])
    ensures RunOutcome(p, states[|states| - 2], states[|states| - 1], false)
  {
    var init := states[..|states| - 1];
    forall i | 0 <= i < |init| - 1 ensures RunOutcome(p, init[i], init[i + 1], false) {
      assert RunOutcome(p, states[i], states[i + 1], false);
    }
  }

  lemma RunKeeps(p: Plan, v: Server, w: Server)
    requires RunOutcome(p, v, w, false)
    ensures Goal(p, w) == Goal(p, v) && (Completable(p, w) <==> Completable(p, v))
  {
    GoalStable(p, v, w);
  }

  /** Any number of interrupted runs keeps the goal and keeps the plan's prospects. */
  lemma {:induction false} AttemptsKeep(p: Plan, states: seq<Server>)
    requires Attempts(p, states)
    ensures Goal(p, states[|states| - 1]) == Goal(p, states[0])
    ensures Completable(p, states[|states| - 1]) <==> Completable(p, states[0])
  {
    if |states| == 1 {
    } else {
      AttemptsPrefix(p, states);
      AttemptsKeep(p, states[..|states| - 1]);
      RunKeeps(p, states[|states| - 2], states[|states| - 1]);
    }
  }

  /**
   Confluence: after any number of failed runs, a run that completes reaches exactly the state one
   clean run would have reached from the first state, and such a clean run exists.
   */
  lemma Confluence(p: Plan, states: seq<Server>, final: Server)
    requires Attempts(p, states) && RunOutcome(p, states[|states| - 1], final, true)
    ensures final == Goal(p, states[0]) && Completable(p, states[0])
    ensures Owned(p.db, p.role, p.user, final)
    ensures p.setDefaults ==> BothWays(p.db, Covered(Names(p.schemas)), p.standard, p.role, p.user) <= final.defaults
  {
    AttemptsKeep(p, states);
    GoalIdempotent(p, states[0]);
  }

  /** A plan that one clean run cannot complete is never completed by retrying. */
  lemma StuckForever(p: Plan, states: seq<Server>, final: Server, ok: bool)
    requires Attempts(p, states) && RunOutcome(p, states[|states| - 1], final, ok)
    requires !Completable(p, states[0])
    ensures !ok && !Completable(p, final)
  {
    AttemptsKeep(p, states);
  }

  lemma AttemptsSnoc(p: Plan, states: seq<Server>, w: Server)
    requires Attempts(p, states) && RunOutcome(p, states[|states| - 1], w, false)
    ensures Attempts(p, states + [w])
  {
    var more := states + [w];
    forall i | 0 <= i < |more| - 1 ensures RunOutcome(p, more[i], more[i + 1], false) {
      if i < |states| - 1 {
        assert RunOutcome(p, states[i], states[i + 1], false);
      }
    }
  }

  /** One run under its own faults. */
  method RunOnce(a: Adapter, p: Plan, order: seq<string>, script: seq<Fault>) returns (ok: bool)
    requires p.role != "" && p.user != "" && p.standard != [] && AllWellFormed(p.standard)
    requires AsSet(order) == Covered(Names(p.schemas))
    modifies a
    ensures RunOutcome(p, old(a.server), a.server, ok)
    ensures script == [] ==> ok == Completable(p, old(a.server))
  {
    a.faults := script;
    var plan := new ProvisionPlan(p, a, order);
    var completed;
    completed, ok := plan.Run();
  }

  /**
   Reconciling: the pipeline is run again and again, each time under its own faults, until it
   completes. It ends in the goal of the first state, or was never able to complete, or met faults to
   the last.
   */
  method Reconcile(a: Adapter, p: Plan, order: seq<string>, scripts: seq<seq<Fault>>) returns (ok: bool, runs: nat)
    requires p.role != "" && p.user != "" && p.standard != [] && AllWellFormed(p.standard)
    requires AsSet(order) == Covered(Names(p.schemas))
    modifies a
    ensures ok ==> a.server == Goal(p, old(a.server)) && Completable(p, old(a.server)) && runs <= |scripts|
    ensures ok ==> Owned(p.db, p.role, p.user, a.server)
    ensures !ok ==> runs == |scripts| && Goal(p, a.server) == Goal(p, old(a.server))
    ensures [] in scripts ==> ok == Completable(p, old(a.server))
  {
    ghost var v, states := a.server, [a.server];
    runs, ok := 0, false;
    while runs < |scripts|
      invariant runs <= |scripts| && !ok
      invariant Attempts(p, states) && states[0] == v && states[|states| - 1] == a.server
      invariant [] in scripts[..runs] ==> !Completable(p, v)
    {
      assert scripts[..runs + 1] == scripts[..runs] + [scripts[runs]];
      AttemptsKeep(p, states);
      ok := RunOnce(a, p, order, scripts[runs]);
      if ok {
        Confluence(p, states, a.server);
        runs := runs + 1;
        return;
      }
      AttemptsSnoc(p, states, a.server);
      states := states + [a.server];
      runs := runs + 1;
    }
    assert scripts[..runs] == scripts;
    AttemptsKeep(p, states);
  }

  /** Nothing the run does not own is touched at any moment of it. */
  lemma SafeKeeps(p: Plan, v: Server, x: Server)
    requires Safe(p, v, x)
    ensures v.roles.Keys <= x.roles.Keys <= v.roles.Keys + {p.role, p.user}
    ensures forall r :: r in v.roles ==> x.roles[r] == v.roles[r]
    ensures v.memberships <= x.memberships <= v.memberships + {(p.user, p.role)}
    ensures v.databases.Keys <= x.databases.Keys <= v.databases.Keys + {p.db}
    ensures forall d :: d in v.databases && d != p.db ==> x.databases[d] == v.databases[d]
    ensures p.db in x.databases ==>
              x.databases[p.db] == p.role || (p.db in v.databases && x.databases[p.db] == v.databases[p.db])
    ensures v.defaults <= x.defaults && v.objects == x.objects && v.held == x.held
  {
    assert Between(v, x, Goal(p, v));
  }

  /** With derived names, a database name of 59 or more characters can never be provisioned. */
  lemma LongNamesNeverComplete(name: string, cfg: OwnershipConfig, schemas: seq<SchemaSpec>,
                               defaults: seq<DefaultSpec>, v: Server)
    requires cfg.roleName == "" && cfg.userName == "" && |name| >= 59
    ensures !Completable(PlanFor(name, cfg, schemas, defaults), v)
  {
    Derive.DerivedNamesDiffer(name);
  }

  /**
   On a server that rejects default privileges for a missing schema, a new database completes only if
   it asks for no schema besides public: the step that would create the others comes too late.
   */
  lemma NewDatabaseWithSchemas(p: Plan, v: Server)
    requires v.strictSchemas && p.setDefaults && p.db !in v.databases
    requires forall n :: (p.db, n) !in v.schemas
    ensures Completable(p, v) ==> Names(p.schemas) <= {"", PUBLIC}
    ensures Names(p.schemas) <= {"", PUBLIC} && p.defaults == [] && p.db != "" && p.role != p.user
            && DefsTaken(p.standard, v)
            && (forall s :: s in p.schemas ==> s.owner in v.roles.Keys + {"", p.role, p.user})
            ==> Completable(p, v)
  {
    if Completable(p, v) {
      forall n | n in Names(p.schemas) ensures n in {"", PUBLIC} {
        assert SchemaThere(p, n, v);
      }
    }
  }
}
